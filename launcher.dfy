/** Launch-option resolution for a YAML script's web target: the viewport and its checks,
    whether the window is maximised, the browser arguments, the network-idle policy and the
    precedence between the caller's preference and the target's own settings. */
module Launcher {
  import opened Js

  /** `process.platform`, as far as the launcher distinguishes it. */
  datatype Platform = Darwin | Win32 | OtherPlatform

  const DefaultUA: string :=
    "Mozilla/5.0 (Macintosh; Intel Mac OS X 10_15_7) AppleWebKit/537.36 (KHTML, like Gecko) Chrome/127.0.0.0 Safari/537.36"
  const DefaultViewportWidth: int := 1440
  const DefaultViewportHeight: int := 768

  function DefaultViewportScale(p: Platform): (s: int)
    ensures s == 2 <==> p == Darwin
    ensures s == 1 <==> p != Darwin
  {
    if p == Darwin then 2 else 1
  }

  /** The `waitForNetworkIdle` block of a target. */
  datatype NetworkIdle = NetworkIdle(timeout: JsValue, continueOnNetworkIdleError: JsValue)

  /** The web target of a script, each field as written (undefined when omitted). */
  datatype WebTarget = WebTarget(
    url: JsValue,
    userAgent: JsValue,
    viewportWidth: JsValue,
    viewportHeight: JsValue,
    viewportScale: JsValue,
    acceptInsecureCerts: JsValue,
    waitForNetworkIdle: Option<NetworkIdle>,
    forceSameTabNavigation: JsValue,
    aiActionContext: JsValue,
    enableStealth: JsValue,
    enableAdBlocker: JsValue,
    adBlockerOptions: JsValue)

  /** The caller's preference; an absent preference has every field undefined. */
  datatype Preference = Preference(
    headed: JsValue,
    keepWindow: JsValue,
    testId: JsValue,
    cacheId: JsValue,
    enableStealth: JsValue,
    enableAdBlocker: JsValue,
    adBlockerOptions: JsValue)

  datatype Viewport = Viewport(width: int, height: int, deviceScaleFactor: int)

  /** What the browser is launched with. */
  datatype LaunchOptions = LaunchOptions(headless: bool, defaultViewport: Viewport, args: seq<string>,
                                         acceptInsecureCerts: JsValue)

  const UrlRequiredMessage: string := "url is required"

  /** A viewport setting passes its checks: it is absent (falsy), or a positive number. */
  predicate DimensionOk(v: JsValue) {
    !Truthy(v) || (v.Num? && v.n > 0)
  }

  /** The setting's value when it is given, the default otherwise. */
  function Chosen(v: JsValue, default: int): int {
    if Truthy(v) && v.Num? then v.n else default
  }

  /** The error a failing setting throws: not a number, or not positive. */
  function DimensionError(v: JsValue, name: string): Thrown {
    if !v.Num? then NotANumber(name) else NotPositive(name, v.n)
  }

  function NotANumber(name: string): Thrown {
    NewError(name + " must be a number")
  }

  function NotPositive(name: string, n: int): Thrown {
    NewError(name + " must be greater than 0, but got " + IntToString(n))
  }

  /** `target.userAgent || defaultUA` */
  function UserAgent(t: WebTarget): string {
    if Truthy(t.userAgent) then ToStr(t.userAgent) else DefaultUA
  }

  /** `preference?.headed || preference?.keepWindow`, as a truth value. */
  predicate Headed(p: Preference) {
    Truthy(p.headed) || Truthy(p.keepWindow)
  }

  /** The window is maximised when no viewport setting is given and the browser is headed. */
  predicate Maximize(t: WebTarget, p: Preference) {
    !Truthy(t.viewportWidth) && !Truthy(t.viewportHeight) && !Truthy(t.viewportScale) && Headed(p)
  }

  const SandboxFlags: seq<string> := ["--no-sandbox", "--disable-setuid-sandbox"]
  const StartMaximized: string := "--start-maximized"

  /** The window argument: maximised, or the viewport size with 200 pixels added to the height
      for the address bar. */
  function WindowArg(maximize: bool, width: int, height: int): (a: string)
    ensures a == StartMaximized <==> maximize
  {
    if maximize then StartMaximized
    else
      var a := "--window-size=" + IntToString(width) + "," + IntToString(height + 200);
      assert a[2] == 'w' && StartMaximized[2] == 's';
      a
  }

  function UserAgentArg(ua: string): string {
    "--user-agent=\"" + ua + "\""
  }

  /** The browser arguments: the sandbox flags except on Windows, the fixed feature flags, the
      user agent and last the window argument. */
  function LaunchArgs(platform: Platform, ua: string, maximize: bool, width: int, height: int): (args: seq<string>)
    ensures |args| == if platform == Win32 then 5 else 7
    ensures platform != Win32 ==> args[..2] == SandboxFlags
    ensures platform == Win32 ==> forall a :: a in args ==> a !in SandboxFlags
    ensures args[|args| - 2] == UserAgentArg(ua)
    ensures args[|args| - 1] == WindowArg(maximize, width, height)
    ensures args[|args| - 1] == StartMaximized <==> maximize
  {
    var common := [
      "--disable-features=HttpsFirstBalancedModeAutoEnable",
      "--disable-features=PasswordLeakDetection",
      "--disable-save-password-bubble",
      UserAgentArg(ua),
      WindowArg(maximize, width, height)];
    assert UserAgentArg(ua)[2] == 'u';
    assert WindowArg(maximize, width, height)[2] == 's' || WindowArg(maximize, width, height)[2] == 'w';
    if platform == Win32 then common else SandboxFlags + common
  }

  /** The arguments for a target with no viewport settings, without a preference, on Linux. */
  lemma DefaultArgs()
    ensures LaunchArgs(OtherPlatform, DefaultUA, false, DefaultViewportWidth, DefaultViewportHeight)[6]
         == "--window-size=1440,968"
  {
    assert NatToString(1440) == "1440" by {
      assert NatToString(1) == "1";
      assert NatToString(14) == NatToString(1) + "4";
      assert NatToString(144) == NatToString(14) + "4";
    }
    assert NatToString(968) == "968" by {
      assert NatToString(96) == NatToString(9) + "6";
    }
  }

  /** launchPuppeteerPage up to the launch: the url check, the viewport settings read one by
      one (each given one turns maximising off and is checked), the headed decision and the
      arguments. */
  method PrepareLaunch(t: WebTarget, p: Preference, platform: Platform) returns (r: Result<LaunchOptions, Thrown>)
    ensures !Truthy(t.url) ==> r == Err(NewError(UrlRequiredMessage))
    ensures Truthy(t.url) && !DimensionOk(t.viewportWidth) ==> r == Err(DimensionError(t.viewportWidth, "viewportWidth"))
    ensures Truthy(t.url) && DimensionOk(t.viewportWidth) && !DimensionOk(t.viewportHeight) ==>
              r == Err(DimensionError(t.viewportHeight, "viewportHeight"))
    ensures Truthy(t.url) && DimensionOk(t.viewportWidth) && DimensionOk(t.viewportHeight) && !DimensionOk(t.viewportScale) ==>
              r == Err(DimensionError(t.viewportScale, "viewportScale"))
    ensures r.Ok? <==>
              Truthy(t.url) && DimensionOk(t.viewportWidth) && DimensionOk(t.viewportHeight) && DimensionOk(t.viewportScale)
    ensures r.Ok? ==>
              var w := Chosen(t.viewportWidth, DefaultViewportWidth);
              var h := Chosen(t.viewportHeight, DefaultViewportHeight);
              r.value.defaultViewport == Viewport(w, h, Chosen(t.viewportScale, DefaultViewportScale(platform))) &&
              r.value.headless == !Headed(p) &&
              r.value.args == LaunchArgs(platform, UserAgent(t), Maximize(t, p), w, h) &&
              r.value.acceptInsecureCerts == t.acceptInsecureCerts
  {
    if !Truthy(t.url) {
      return Err(NewError(UrlRequiredMessage));
    }
    var ua := UserAgent(t);
    var width := DefaultViewportWidth;
    var preferMaximizedWindow := true;
    if Truthy(t.viewportWidth) {
      preferMaximizedWindow := false;
      if !t.viewportWidth.Num? {
        return Err(NotANumber("viewportWidth"));
      }
      width := t.viewportWidth.n;
      if width <= 0 {
        return Err(NotPositive("viewportWidth", width));
      }
    }
    var height := DefaultViewportHeight;
    if Truthy(t.viewportHeight) {
      preferMaximizedWindow := false;
      if !t.viewportHeight.Num? {
        return Err(NotANumber("viewportHeight"));
      }
      height := t.viewportHeight.n;
      if height <= 0 {
        return Err(NotPositive("viewportHeight", height));
      }
    }
    var dpr := DefaultViewportScale(platform);
    if Truthy(t.viewportScale) {
      preferMaximizedWindow := false;
      if !t.viewportScale.Num? {
        return Err(NotANumber("viewportScale"));
      }
      dpr := t.viewportScale.n;
      if dpr <= 0 {
        return Err(NotPositive("viewportScale", dpr));
      }
    }
    var viewport := Viewport(width, height, dpr);
    var headed := Headed(p);
    preferMaximizedWindow := preferMaximizedWindow && headed;
    var args := LaunchArgs(platform, ua, preferMaximizedWindow, width, height);
    r := Ok(LaunchOptions(!headed, viewport, args, t.acceptInsecureCerts));
  }

  // ---------------------------------------------------------------------------------------
  // Navigation and the network-idle wait

  /** The network-idle timeout: the target's when it is a number, the default otherwise. */
  function NetworkIdleTimeout(t: WebTarget, default: int): (ms: int)
    ensures t.waitForNetworkIdle.Some? && t.waitForNetworkIdle.value.timeout.Num? ==>
              ms == t.waitForNetworkIdle.value.timeout.n
    ensures !(t.waitForNetworkIdle.Some? && t.waitForNetworkIdle.value.timeout.Num?) ==> ms == default
  {
    if t.waitForNetworkIdle.Some? && t.waitForNetworkIdle.value.timeout.Num? then t.waitForNetworkIdle.value.timeout.n
    else default
  }

  /** A navigation or idle error is fatal only when `continueOnNetworkIdleError` is the
      boolean `false`. */
  predicate FatalIdleError(t: WebTarget) {
    t.waitForNetworkIdle.Some? && t.waitForNetworkIdle.value.continueOnNetworkIdleError == Bool(false)
  }

  /** What the navigation threw: the page load's error, or else the idle wait's, which only
      happens for a positive timeout. */
  function NavigationError(ms: int, gotoError: Option<Thrown>, idleError: Option<Thrown>): (e: Option<Thrown>)
    ensures e.None? <==> gotoError.None? && (ms <= 0 || idleError.None?)
  {
    if gotoError.Some? then gotoError
    else if ms > 0 then idleError
    else None
  }

  function IdleWarning(ms: int): string {
    "failed to wait for network idle after " + IntToString(ms) + "ms, but the script will continue."
  }

  /** The navigation step, with the page load's and the idle wait's outcomes given: it throws
      a wrapped error when a failure is fatal, and otherwise yields the warning it prints, if
      any. */
  function Navigate(t: WebTarget, default: int, gotoError: Option<Thrown>, idleError: Option<Thrown>)
    : (r: Result<Option<string>, Thrown>)
    ensures var e := NavigationError(NetworkIdleTimeout(t, default), gotoError, idleError);
      (r.Err? <==> e.Some? && FatalIdleError(t)) &&
      (r.Err? ==> r.error == NewError("failed to wait for network idle: " + ThrownToStr(e.value))) &&
      (r.Ok? ==> (r.value.Some? <==> e.Some?)) &&
      (r.Ok? && r.value.Some? ==> r.value.value == IdleWarning(NetworkIdleTimeout(t, default)))
  {
    var ms := NetworkIdleTimeout(t, default);
    match NavigationError(ms, gotoError, idleError)
    case None => Ok(None)
    case Some(e) =>
      if FatalIdleError(t) then Err(NewError("failed to wait for network idle: " + ThrownToStr(e)))
      else Ok(Some(IdleWarning(ms)))
  }

  /** A non-positive timeout skips the idle wait: its outcome is never seen. */
  lemma NoWaitIgnoresIdle(t: WebTarget, default: int, gotoError: Option<Thrown>, a: Option<Thrown>, b: Option<Thrown>)
    requires NetworkIdleTimeout(t, default) <= 0
    ensures Navigate(t, default, gotoError, a) == Navigate(t, default, gotoError, b)
  {
  }

  /** Only an explicit `false` makes a failure fatal: undefined, `true` and any non-boolean
      value all continue. */
  lemma ContinueUnlessFalse(t: WebTarget, default: int, e: Thrown)
    requires !FatalIdleError(t)
    ensures Navigate(t, default, Some(e), None) == Ok(Some(IdleWarning(NetworkIdleTimeout(t, default))))
  {
  }

  // ---------------------------------------------------------------------------------------
  // Option precedence in puppeteerAgentForTarget

  /** The stealth and ad-blocker options after merging. */
  datatype MergedOptions = MergedOptions(enableStealth: JsValue, enableAdBlocker: JsValue, adBlockerOptions: JsValue)

  /** The preference wins over the target; the two switches default to `false`, the ad-blocker
      options have no default. */
  function MergeOptions(t: WebTarget, p: Preference): (m: MergedOptions)
    ensures !Nullish(p.enableStealth) ==> m.enableStealth == p.enableStealth
    ensures Nullish(p.enableStealth) && !Nullish(t.enableStealth) ==> m.enableStealth == t.enableStealth
    ensures Nullish(p.enableStealth) && Nullish(t.enableStealth) ==> m.enableStealth == Bool(false)
    ensures !Nullish(p.enableAdBlocker) ==> m.enableAdBlocker == p.enableAdBlocker
    ensures Nullish(p.enableAdBlocker) && !Nullish(t.enableAdBlocker) ==> m.enableAdBlocker == t.enableAdBlocker
    ensures Nullish(p.enableAdBlocker) && Nullish(t.enableAdBlocker) ==> m.enableAdBlocker == Bool(false)
    ensures !Nullish(m.enableStealth) && !Nullish(m.enableAdBlocker)
    ensures !Nullish(p.adBlockerOptions) ==> m.adBlockerOptions == p.adBlockerOptions
    ensures Nullish(p.adBlockerOptions) ==> m.adBlockerOptions == t.adBlockerOptions
  {
    MergedOptions(
      Coalesce(p.enableStealth, Coalesce(t.enableStealth, Bool(false))),
      Coalesce(p.enableAdBlocker, Coalesce(t.enableAdBlocker, Bool(false))),
      Coalesce(p.adBlockerOptions, t.adBlockerOptions))
  }

  /** The preference handed to launchPuppeteerPage: the caller's, with the merged options. */
  function LaunchPreference(p: Preference, m: MergedOptions): (q: Preference)
    ensures Headed(q) <==> Headed(p)
    ensures q.enableStealth == m.enableStealth && q.enableAdBlocker == m.enableAdBlocker
    ensures q.adBlockerOptions == m.adBlockerOptions
  {
    p.(enableStealth := m.enableStealth, enableAdBlocker := m.enableAdBlocker, adBlockerOptions := m.adBlockerOptions)
  }

  /** `forceSameTabNavigation` defaults to true in a script; any written value, null
      included, is kept. */
  function ForceSameTab(v: JsValue): (r: JsValue)
    ensures v.Undefined? <==> r == Bool(true) && v != Bool(true)
    ensures !v.Undefined? ==> r == v
  {
    if v.Undefined? then Bool(true) else v
  }

  /** The options the Puppeteer agent is built with. */
  datatype AgentOptions = AgentOptions(
    autoPrintReportMsg: bool,
    testId: JsValue,
    cacheId: JsValue,
    aiActionContext: JsValue,
    forceSameTabNavigation: JsValue,
    enableStealth: JsValue,
    enableAdBlocker: JsValue,
    adBlockerOptions: JsValue)

  function AgentOptionsFor(t: WebTarget, p: Preference): (o: AgentOptions)
    ensures var m := MergeOptions(t, p);
      !o.autoPrintReportMsg && o.testId == p.testId && o.cacheId == p.cacheId &&
      o.aiActionContext == t.aiActionContext && o.forceSameTabNavigation == ForceSameTab(t.forceSameTabNavigation) &&
      o.enableStealth == m.enableStealth && o.enableAdBlocker == m.enableAdBlocker &&
      o.adBlockerOptions == m.adBlockerOptions
  {
    var m := MergeOptions(t, p);
    AgentOptions(false, p.testId, p.cacheId, t.aiActionContext, ForceSameTab(t.forceSameTabNavigation),
                 m.enableStealth, m.enableAdBlocker, m.adBlockerOptions)
  }

  /** The launch and the agent see the same merged options: what the page is launched with
      agrees with what the agent is told. */
  lemma LaunchAndAgentAgree(t: WebTarget, p: Preference)
    ensures var q := LaunchPreference(p, MergeOptions(t, p));
      var o := AgentOptionsFor(t, p);
      q.enableStealth == o.enableStealth && q.enableAdBlocker == o.enableAdBlocker &&
      q.adBlockerOptions == o.adBlockerOptions && !Nullish(o.enableStealth)
  {
  }
}
