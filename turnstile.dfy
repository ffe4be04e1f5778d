/** The `Turnstile` component: a controller for one Cloudflare Turnstile
    widget on `window.turnstile`, the provider object that loads
    asynchronously. The controller polls until the provider exists, renders
    one widget into its `<div>`, resets it on expiry and removes it when
    the effect is torn down. */
module Turnstile {
  import opened Js

  /** The delay, in milliseconds, before `checkTurnstile` runs again while the provider is missing. */
  const PollIntervalMs := 100

  /** A call made on the provider. */
  datatype ProviderCall = RenderCall(id: string) | ResetCall(id: string) | RemoveCall(id: string)

  /** The widget a call leaves live, given the one live before it. */
  function Step(live: Option<string>, c: ProviderCall): Option<string>
  {
    match c
    case RenderCall(id) => Some(id)
    case ResetCall(_) => live
    case RemoveCall(id) => if live == Some(id) then None else live
  }

  /** A call the one-widget discipline allows: render only when no widget
      is live, reset and remove only the live one. */
  predicate Allowed(live: Option<string>, c: ProviderCall)
  {
    match c
    case RenderCall(_) => live.None?
    case ResetCall(id) => live == Some(id)
    case RemoveCall(id) => live == Some(id)
  }

  /** The widget live after a sequence of calls. */
  function LiveWidget(calls: seq<ProviderCall>): Option<string>
  {
    if calls == [] then None else Step(LiveWidget(calls[..|calls| - 1]), calls[|calls| - 1])
  }

  /** Every call of the sequence was allowed when it was made. */
  predicate Disciplined(calls: seq<ProviderCall>)
  {
    calls == [] ||
    (Disciplined(calls[..|calls| - 1]) && Allowed(LiveWidget(calls[..|calls| - 1]), calls[|calls| - 1]))
  }

  function Renders(calls: seq<ProviderCall>): nat
  {
    if calls == [] then 0 else Renders(calls[..|calls| - 1]) + (if calls[|calls| - 1].RenderCall? then 1 else 0)
  }

  function Removes(calls: seq<ProviderCall>): nat
  {
    if calls == [] then 0 else Removes(calls[..|calls| - 1]) + (if calls[|calls| - 1].RemoveCall? then 1 else 0)
  }

  /** Appending one call: the three summaries take one more step. */
  lemma Snoc(calls: seq<ProviderCall>, c: ProviderCall)
    ensures LiveWidget(calls + [c]) == Step(LiveWidget(calls), c)
    ensures Disciplined(calls + [c]) <==> Disciplined(calls) && Allowed(LiveWidget(calls), c)
    ensures Renders(calls + [c]) == Renders(calls) + (if c.RenderCall? then 1 else 0)
    ensures Removes(calls + [c]) == Removes(calls) + (if c.RemoveCall? then 1 else 0)
  {
    assert (calls + [c])[..|calls|] == calls;
  }

  /** A render while no widget is live keeps the discipline and makes its widget the live one. */
  lemma Rendered(calls: seq<ProviderCall>, id: string)
    requires Disciplined(calls) && LiveWidget(calls).None?
    ensures Disciplined(calls + [RenderCall(id)]) && LiveWidget(calls + [RenderCall(id)]) == Some(id)
  {
    Snoc(calls, RenderCall(id));
  }

  /** Under the discipline at most one widget is ever live: every render
      but the live one has been matched by a remove. */
  lemma {:induction false} AtMostOneLive(calls: seq<ProviderCall>)
    requires Disciplined(calls)
    ensures Renders(calls) == Removes(calls) + (if LiveWidget(calls).Some? then 1 else 0)
  {
    if calls != [] {
      var prefix, last := calls[..|calls| - 1], calls[|calls| - 1];
      assert calls == prefix + [last];
      AtMostOneLive(prefix);
      Snoc(prefix, last);
    }
  }

  /** What one run of `checkTurnstile` does. */
  datatype PollStep = Mount | Retry(delayMs: nat) | Stop

  /** `checkTurnstile`'s decision: render when the provider and the surface
      exist and no widget id is held; schedule another run while the
      provider is missing; otherwise stop polling. */
  function PollDecision(providerLoaded: bool, surfaceAttached: bool, held: bool): (r: PollStep)
    ensures r == Mount <==> providerLoaded && surfaceAttached && !held
    ensures r.Retry? <==> !providerLoaded
    ensures r.Retry? ==> r.delayMs == PollIntervalMs
    ensures r == Stop <==> providerLoaded && (!surfaceAttached || held)
  {
    if providerLoaded && surfaceAttached && !held then Mount
    else if !providerLoaded then Retry(PollIntervalMs)
    else Stop
  }

  /** The decimal digits of `n`. */
  function Digits(n: nat): string
  {
    (if n < 10 then "" else Digits(n / 10)) + ["0123456789"[n % 10]]
  }

  /** The opaque handle the provider issues for its `n`-th widget. */
  function WidgetHandle(n: nat): (id: string)
    ensures id != ""
  {
    "widget-" + Digits(n)
  }

  /** `window.turnstile`: absent until its script has loaded; it records
      every call made on it. */
  class Provider {
    var loaded: bool
    var issued: nat
    var calls: seq<ProviderCall>

    constructor (loaded: bool)
      ensures this.loaded == loaded && issued == 0 && calls == []
    {
      this.loaded := loaded;
      issued := 0;
      calls := [];
    }

    /** The provider's script finishes loading. */
    method Load()
      modifies this`loaded
      ensures loaded
    {
      loaded := true;
    }

    method Render() returns (id: string)
      requires loaded
      modifies this`issued, this`calls
      ensures id == WidgetHandle(old(issued)) && issued == old(issued) + 1
      ensures calls == old(calls) + [RenderCall(id)]
    {
      id := WidgetHandle(issued);
      issued := issued + 1;
      calls := calls + [RenderCall(id)];
    }

    method Reset(id: string)
      requires loaded
      modifies this`calls
      ensures calls == old(calls) + [ResetCall(id)]
    {
      calls := calls + [ResetCall(id)];
    }

    method Remove(id: string)
      requires loaded
      modifies this`calls
      ensures calls == old(calls) + [RemoveCall(id)]
    {
      calls := calls + [RemoveCall(id)];
    }
  }

  /** One instance of the component, across the runs of its effect. */
  class TurnstileWidget {
    /** `NEXT_PUBLIC_TURNSTILE_SITE_KEY`, `""` when unset. */
    const siteKey: string
    /** Whether the host passed an `onError` callback. */
    const hasOnError: bool
    const provider: Provider
    /** How many provider calls preceded this instance. */
    ghost const base: nat
    /** `widgetRef.current !== null`: the `<div>` is in the page. */
    var surface: bool
    /** `widgetIdRef.current`. */
    var widgetId: Option<string>
    /** `checkTurnstile` timers scheduled and not yet run (never cancelled). */
    var pendingPolls: nat

    /** The calls this instance has made. */
    ghost function Calls(): seq<ProviderCall>
      reads this, provider
      requires base <= |provider.calls|
    {
      provider.calls[base..]
    }

    ghost predicate Valid()
      reads this, provider
    {
      base <= |provider.calls|
      && (surface ==> siteKey != "")
      && (siteKey == "" ==> pendingPolls == 0 && Calls() == [])
      && (widgetId.Some? ==> provider.loaded && widgetId.value != "")
      && Disciplined(Calls()) && LiveWidget(Calls()) == widgetId
    }

    /** Rendering the component: with no site key it renders nothing (no surface). */
    constructor (siteKey: string, hasOnError: bool, provider: Provider)
      ensures Valid()
      ensures this.siteKey == siteKey && this.hasOnError == hasOnError && this.provider == provider
      ensures surface == (siteKey != "") && widgetId.None? && pendingPolls == 0 && Calls() == []
    {
      this.siteKey := siteKey;
      this.hasOnError := hasOnError;
      this.provider := provider;
      base := |provider.calls|;
      surface := siteKey != "";
      widgetId := None;
      pendingPolls := 0;
    }

    /** What a run of `checkTurnstile` did to the state. */
    twostate predicate Checked(step: PollStep)
      reads this, provider
    {
      step == PollDecision(old(provider.loaded), old(surface), old(widgetId).Some?)
      && (step == Mount ==>
            widgetId == Some(WidgetHandle(old(provider.issued)))
            && provider.calls == old(provider.calls) + [RenderCall(widgetId.value)]
            && provider.issued == old(provider.issued) + 1)
      && (step != Mount ==>
            widgetId == old(widgetId) && provider.calls == old(provider.calls)
            && provider.issued == old(provider.issued))
      && provider.loaded == old(provider.loaded) && surface == old(surface)
    }

    /** The render branch of `checkTurnstile`: a fresh widget goes into the
        surface and its id is held. */
    method RenderWidget()
      requires Valid() && siteKey != "" && provider.loaded && widgetId.None?
      modifies this`widgetId, provider`issued, provider`calls
      ensures Valid()
      ensures widgetId == Some(WidgetHandle(old(provider.issued))) && provider.issued == old(provider.issued) + 1
      ensures provider.calls == old(provider.calls) + [RenderCall(widgetId.value)]
    {
      ghost var before := Calls();
      var id := provider.Render();
      widgetId := Some(id);
      assert Calls() == before + [RenderCall(id)];
      Rendered(before, id);
    }

    /** `checkTurnstile`. */
    method CheckTurnstile() returns (step: PollStep)
      requires Valid() && siteKey != ""
      modifies this`widgetId, this`pendingPolls, provider`issued, provider`calls
      ensures Valid() && Checked(step)
      ensures pendingPolls == old(pendingPolls) + (if step.Retry? then 1 else 0)
    {
      if provider.loaded && surface && widgetId.None? {
        RenderWidget();
        step := Mount;
      } else if !provider.loaded {
        pendingPolls := pendingPolls + 1;
        step := Retry(PollIntervalMs);
      } else {
        step := Stop;
      }
    }

    /** The effect body: it does nothing without a site key or a surface,
        and otherwise runs `checkTurnstile` once. */
    method RunEffect() returns (step: Option<PollStep>)
      requires Valid()
      modifies this`widgetId, this`pendingPolls, provider`issued, provider`calls
      ensures Valid()
      ensures step.None? <==> siteKey == "" || !old(surface)
      ensures step.None? ==> widgetId == old(widgetId) && pendingPolls == old(pendingPolls)
                             && provider.calls == old(provider.calls) && provider.issued == old(provider.issued)
      ensures step.Some? ==> Checked(step.value)
                             && pendingPolls == old(pendingPolls) + (if step.value.Retry? then 1 else 0)
    {
      if siteKey == "" || !surface {
        return None;
      }
      var s := CheckTurnstile();
      step := Some(s);
    }

    /** A scheduled timer fires and runs `checkTurnstile` again. */
    method Tick() returns (step: PollStep)
      requires Valid() && pendingPolls > 0
      modifies this`widgetId, this`pendingPolls, provider`issued, provider`calls
      ensures Valid() && Checked(step)
      ensures pendingPolls == old(pendingPolls) - 1 + (if step.Retry? then 1 else 0)
    {
      pendingPolls := pendingPolls - 1;
      step := CheckTurnstile();
    }

    /** The `callback` option: the token goes to `onVerify` unchanged. */
    method SuccessCallback(token: string) returns (verified: string)
      ensures verified == token
    {
      verified := token;
    }

    /** The `error-callback` option: reports whether `onError` is called. */
    method ErrorCallback() returns (notified: bool)
      ensures notified == hasOnError
    {
      notified := hasOnError;
    }

    /** The `expired-callback` option: the held widget, if any, is reset in
        place; it is neither removed nor rendered again. */
    method ExpiredCallback()
      requires Valid()
      modifies provider`calls
      ensures Valid()
      ensures provider.calls == old(provider.calls) + (if widgetId.Some? then [ResetCall(widgetId.value)] else [])
    {
      if widgetId.Some? && provider.loaded {
        ghost var before := Calls();
        provider.Reset(widgetId.value);
        assert Calls() == before + [ResetCall(widgetId.value)];
        Snoc(before, ResetCall(widgetId.value));
      }
    }

    /** The effect's cleanup: a held widget is removed and its id cleared;
        with none held no provider call is made. Pending polls stay scheduled. */
    method Teardown()
      requires Valid()
      modifies this`widgetId, provider`calls
      ensures Valid() && widgetId.None?
      ensures provider.calls == old(provider.calls) + (if old(widgetId).Some? then [RemoveCall(old(widgetId).value)] else [])
    {
      if widgetId.Some? && provider.loaded {
        ghost var before := Calls();
        provider.Remove(widgetId.value);
        assert Calls() == before + [RemoveCall(widgetId.value)];
        Snoc(before, RemoveCall(widgetId.value));
        widgetId := None;
      }
    }

    /** The component leaves the page: the cleanup runs and the `<div>` goes. */
    method Unmount()
      requires Valid()
      modifies this`widgetId, this`surface, provider`calls
      ensures Valid() && widgetId.None? && !surface
      ensures provider.calls == old(provider.calls) + (if old(widgetId).Some? then [RemoveCall(old(widgetId).value)] else [])
    {
      Teardown();
      surface := false;
    }
  }

  /** After a teardown the same instance may render a fresh widget, and
      the provider saw exactly one remove. */
  method ScenarioRemount()
  {
    var p := new Provider(true);
    var w := new TurnstileWidget("site-key", true, p);
    var s := w.RunEffect();
    assert s == Some(Mount);
    ghost var first := w.widgetId.value;
    w.Teardown();
    assert w.widgetId.None? && p.calls[|p.calls| - 1] == RemoveCall(first);
    s := w.RunEffect();
    assert s == Some(Mount);
  }

  /** Two effect runs before the provider loads leave two timers; once it
      loads the first renders and the second stops, so one widget only. */
  method ScenarioSlowProvider()
  {
    var p := new Provider(false);
    var w := new TurnstileWidget("site-key", false, p);
    var s := w.RunEffect();
    assert s == Some(Retry(PollIntervalMs));
    w.Teardown();
    s := w.RunEffect();
    assert w.pendingPolls == 2 && p.calls == [];
    p.Load();
    var t := w.Tick();
    assert t == Mount;
    t := w.Tick();
    assert t == Stop && p.calls == [RenderCall(WidgetHandle(0))];
  }

  /** With no site key there is no surface, so nothing is ever rendered. */
  method ScenarioNoSiteKey()
  {
    var p := new Provider(true);
    var w := new TurnstileWidget("", true, p);
    var s := w.RunEffect();
    assert s.None? && p.calls == [];
  }
}
