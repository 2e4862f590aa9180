/** The embedded-browser recovery state machine of the app shell, as pure
    transitions: one function per event the controller reacts to, each
    returning the new state together with the side effects the handler
    performs (timers it arms, calls it makes on the view, requests it hands
    to the update and push services). */
module Lifecycle {

  datatype Option<T> = None | Some(value: T)

  /** The platform's app-state values. */
  datatype AppStatus = Active | Inactive | Background | Unknown | Extension

  /** The listener tests the state strings against /inactive|background/. */
  predicate IsAway(a: AppStatus) {
    a == Inactive || a == Background
  }

  /** What `webViewRef.current` is when a handler runs: no mounted view, or
      a view whose `reload` may be missing or may throw when called. */
  datatype ViewRef = Detached | Mounted(canReload: bool, reloadThrows: bool)

  /** A page message after JSON parsing. `Malformed` stands for every
      payload whose parsing or field access throws; `Unrecognized` for a
      well-formed message of any other type. */
  datatype Message =
    | LoginStatus(isLoggedIn: bool, userId: Option<string>)
    | OpenSettings
    | BlankDetected
    | Unrecognized
    | Malformed

  datatype Registration = Registration(token: string, userId: string)

  /** The side effects of one event. */
  datatype Effects = Effects(
    scheduleRetry: bool,            // a one-shot retry timer is armed
    reload: bool,                   // webViewRef.current.reload() is called
    injectReload: bool,             // the page is told to reload itself
    injectBlankCheck: bool,         // the blank-body probe is injected
    checkForUpdates: bool,          // an update check is requested
    openSettings: bool,             // the platform settings screen is opened
    register: Option<Registration>) // the push token is posted to the server

  const NoEffects := Effects(false, false, false, false, false, false, None)

  /** The controller's fields. `expoPushToken` is "" when no token is held
      (the source keeps '' or null there, and tests only truthiness). */
  datatype State = State(
    loading: bool,
    webViewError: bool,
    retryCount: nat,
    appIsReady: bool,
    isWebViewReady: bool,
    webViewKey: nat,
    isReloading: bool,
    appState: AppStatus,
    lastBackgroundTime: Option<int>,
    currentUserId: Option<string>,
    expoPushToken: string,
    canGoBack: bool)

  datatype Outcome = Outcome(state: State, effects: Effects)

  /** Automatic retries allowed before the error view stays up. */
  const MaxRetries: nat := 3
  /** Delay of the retry timer and period of the health check (ms). They only
      record the source's timings: the model delivers timers as events. */
  const RetryDelayMs: nat := 3000
  const HealthCheckPeriodMs: nat := 60000
  /** Time in the background after which returning triggers an update check. */
  const UpdateThresholdMs: int := 300000  // five minutes

  /** State at mount: the page is considered loading from the start. */
  function Init(app: AppStatus): (s: State)
    ensures s.loading && !s.webViewError && !s.appIsReady && !s.isWebViewReady
    ensures s.retryCount == 0 && s.webViewKey == 0 && !s.isReloading
    ensures s.lastBackgroundTime == None && s.currentUserId == None && s.expoPushToken == ""
    ensures s.appState == app && !s.canGoBack
  {
    State(true, false, 0, false, false, 0, false, app, None, None, "", false)
  }

  /** JavaScript truthiness of the values the handlers test. */
  predicate HasTimestamp(t: Option<int>) {
    t.Some? && t.value != 0
  }

  predicate HasText(u: Option<string>) {
    u.Some? && u.value != ""
  }

  // ---------------------------------------------------------------------
  // Render conditions

  /** The custom spinner: while a load is in flight and the view is not
      ready, that is at launch and again after a crash remount withdraws
      readiness. */
  predicate SpinnerVisible(s: State) {
    !s.isWebViewReady && s.loading && !s.webViewError
  }

  /** The static error view: a failed load once the retry budget is spent. */
  predicate ErrorViewVisible(s: State) {
    s.webViewError && s.retryCount >= MaxRetries
  }

  /** The spinner and the error view are never on screen together. */
  lemma OverlaysExclusive(s: State)
    ensures !(SpinnerVisible(s) && ErrorViewVisible(s))
  {
  }

  datatype BackDecision = GoBackInPage | PassToSystem

  /** Hardware back press: navigate back inside the page when it has
      history (and report the press handled), otherwise let the platform
      handle it. */
  function BackAction(s: State): (d: BackDecision)
    ensures d == GoBackInPage <==> s.canGoBack
    ensures d == PassToSystem <==> !s.canGoBack
  {
    if s.canGoBack then GoBackInPage else PassToSystem
  }

  // ---------------------------------------------------------------------
  // Load events

  function OnLoadStart(s: State): (r: State)
    ensures r.loading && !r.webViewError
    ensures r.(loading := s.loading, webViewError := s.webViewError) == s
    ensures !ErrorViewVisible(r)
    ensures SpinnerVisible(r) <==> !s.isWebViewReady
  {
    s.(loading := true, webViewError := false)
  }

  function OnLoadEnd(s: State): (r: State)
    ensures !r.loading && !r.webViewError && r.retryCount == 0
    ensures r.appIsReady && r.isWebViewReady && !r.isReloading
    ensures r.webViewKey == s.webViewKey
    ensures r.(loading := s.loading, webViewError := s.webViewError, retryCount := s.retryCount,
               appIsReady := s.appIsReady, isWebViewReady := s.isWebViewReady,
               isReloading := s.isReloading) == s
    ensures !SpinnerVisible(r) && !ErrorViewVisible(r)
  {
    s.(loading := false, webViewError := false, retryCount := 0, appIsReady := true,
       isWebViewReady := true, isReloading := false)
  }

  /** A failed load: a retry is armed only while the budget lasts; once it is
      spent the error view shows and nothing further is scheduled. */
  function OnLoadError(s: State): (o: Outcome)
    ensures o.state.webViewError && !o.state.loading && o.state.appIsReady
    ensures o.state.(webViewError := s.webViewError, loading := s.loading, appIsReady := s.appIsReady) == s
    ensures o.effects.scheduleRetry <==> s.retryCount < MaxRetries
    ensures o.effects.(scheduleRetry := false) == NoEffects
    ensures ErrorViewVisible(o.state) <==> !o.effects.scheduleRetry
    ensures !SpinnerVisible(o.state)
  {
    var r := s.(webViewError := true, loading := false, appIsReady := true);
    if s.retryCount < MaxRetries then Outcome(r, NoEffects.(scheduleRetry := true))
    else Outcome(r, NoEffects)
  }

  /** The retry timer firing: one more attempt, and a fresh view instance. */
  function OnRetryFires(s: State): (r: State)
    ensures r.retryCount == s.retryCount + 1 && r.webViewKey == s.webViewKey + 1
    ensures r.(retryCount := s.retryCount, webViewKey := s.webViewKey) == s
  {
    s.(retryCount := s.retryCount + 1, webViewKey := s.webViewKey + 1)
  }

  // ---------------------------------------------------------------------
  // Recovery from a crashed or blank page

  /** Discard the view and mount a new instance under the next key. */
  function Remount(s: State): State {
    s.(isReloading := false, isWebViewReady := false, loading := true, webViewKey := s.webViewKey + 1)
  }

  /** The view's content process died: ignored while a recovery is in
      flight; otherwise reload in place, or remount when the view has no
      reload or its reload throws. */
  function OnContentTerminated(s: State, view: ViewRef): (o: Outcome)
    ensures s.isReloading ==> o == Outcome(s, NoEffects)
    ensures !s.isReloading && view.Mounted? && view.canReload && !view.reloadThrows ==>
      o.state == s.(isReloading := true) && o.effects == NoEffects.(reload := true)
    ensures !s.isReloading && !(view.Mounted? && view.canReload && !view.reloadThrows) ==>
      && o.state.webViewKey == s.webViewKey + 1
      && !o.state.isWebViewReady && o.state.loading && !o.state.isReloading
      && o.state.(webViewKey := s.webViewKey, isWebViewReady := s.isWebViewReady,
                  loading := s.loading, isReloading := s.isReloading) == s
      && o.effects == NoEffects.(reload := view.Mounted? && view.canReload)
    ensures o.state.webViewKey != s.webViewKey ==> !o.effects.reload || view.reloadThrows
  {
    if s.isReloading then Outcome(s, NoEffects)
    else if view.Mounted? && view.canReload then
      if view.reloadThrows then Outcome(Remount(s), NoEffects.(reload := true))
      else Outcome(s.(isReloading := true), NoEffects.(reload := true))
    else Outcome(Remount(s), NoEffects)
  }

  // ---------------------------------------------------------------------
  // Page messages

  /** A page message. A login report records (or clears) the user and,
      when a token is held, registers that token for that user; a blank
      report reloads the view (never remounts it) unless a recovery is in
      flight or no view is mounted. A throwing reload leaves the guard set. */
  function OnMessage(s: State, msg: Message, view: ViewRef): (o: Outcome)
    ensures o.state.webViewKey == s.webViewKey
    ensures msg.LoginStatus? && msg.isLoggedIn && HasText(msg.userId) ==>
      && o.state == s.(currentUserId := msg.userId)
      && o.effects == NoEffects.(register :=
           if s.expoPushToken != "" then Some(Registration(s.expoPushToken, msg.userId.value)) else None)
    ensures msg.LoginStatus? && !(msg.isLoggedIn && HasText(msg.userId)) ==>
      o == Outcome(s.(currentUserId := None), NoEffects)
    ensures o.effects.register.Some? <==> msg.LoginStatus? && msg.isLoggedIn && HasText(msg.userId) && s.expoPushToken != ""
    ensures msg.OpenSettings? ==> o == Outcome(s, NoEffects.(openSettings := true))
    ensures msg.BlankDetected? && !s.isReloading && view.Mounted? ==>
      o == Outcome(s.(isReloading := true), NoEffects.(reload := view.canReload, injectReload := !view.canReload))
    ensures msg.BlankDetected? && (s.isReloading || view.Detached?) ==> o == Outcome(s, NoEffects)
    ensures msg.Unrecognized? || msg.Malformed? ==> o == Outcome(s, NoEffects)
  {
    match msg
    case LoginStatus(loggedIn, uid) =>
      if loggedIn && HasText(uid) then
        var fx := if s.expoPushToken != "" then NoEffects.(register := Some(Registration(s.expoPushToken, uid.value)))
                  else NoEffects;
        Outcome(s.(currentUserId := uid), fx)
      else Outcome(s.(currentUserId := None), NoEffects)
    case OpenSettings => Outcome(s, NoEffects.(openSettings := true))
    case BlankDetected =>
      if !s.isReloading && view.Mounted? then
        Outcome(s.(isReloading := true), NoEffects.(reload := view.canReload, injectReload := !view.canReload))
      else Outcome(s, NoEffects)
    case Unrecognized => Outcome(s, NoEffects)
    case Malformed => Outcome(s, NoEffects)
  }

  // ---------------------------------------------------------------------
  // Timers and platform notifications

  /** The 60-second health check: probe for a blank body only when no
      recovery is in flight and a ready view is mounted. It changes no state. */
  function OnHealthTick(s: State, view: ViewRef): (fx: Effects)
    ensures fx.injectBlankCheck <==> !s.isReloading && s.isWebViewReady && view.Mounted?
    ensures s.isReloading ==> fx == NoEffects
    ensures fx.(injectBlankCheck := false) == NoEffects
  {
    if s.isReloading then NoEffects
    else NoEffects.(injectBlankCheck := s.isWebViewReady && view.Mounted?)
  }

  /** An app-state transition at time `now`: leaving the foreground records
      the time; returning to it requests an update check when the recorded
      time is more than five minutes old. The timestamp is never cleared. */
  function OnAppStateChange(s: State, next: AppStatus, now: int): (o: Outcome)
    ensures o.state.appState == next
    ensures o.state.lastBackgroundTime ==
      if s.appState == Active && IsAway(next) then Some(now) else s.lastBackgroundTime
    ensures o.state.(appState := s.appState, lastBackgroundTime := s.lastBackgroundTime) == s
    ensures o.effects.checkForUpdates <==> ReturnsAfterLongAbsence(s, next, now)
    ensures o.effects.(checkForUpdates := false) == NoEffects
  {
    Outcome(s.(appState := next,
               lastBackgroundTime := if s.appState == Active && IsAway(next) then Some(now) else s.lastBackgroundTime),
            NoEffects.(checkForUpdates := ReturnsAfterLongAbsence(s, next, now)))
  }

  /** Coming back to the foreground with a recorded time more than five minutes old. */
  predicate ReturnsAfterLongAbsence(s: State, next: AppStatus, now: int) {
    IsAway(s.appState) && next == Active && HasTimestamp(s.lastBackgroundTime)
    && now - s.lastBackgroundTime.value > UpdateThresholdMs
  }

  /** The page's navigation state reports whether it has back history. */
  function OnNavigationStateChange(s: State, canGoBack: bool): (r: State)
    ensures r.canGoBack == canGoBack && r.(canGoBack := s.canGoBack) == s
  {
    s.(canGoBack := canGoBack)
  }

  /** The push-token request settles with a token or with none. */
  function OnPushTokenResolved(s: State, token: Option<string>): (r: State)
    ensures r.expoPushToken != "" <==> HasText(token)
    ensures HasText(token) ==> r.expoPushToken == token.value
    ensures r.(expoPushToken := s.expoPushToken) == s
  {
    s.(expoPushToken := if token.Some? then token.value else "")
  }

  // ---------------------------------------------------------------------
  // Uniform dispatch

  datatype Event =
    | LoadStart
    | LoadEnd
    | LoadError
    | RetryFires
    | ContentTerminated(view: ViewRef)
    | PageMessage(msg: Message, view: ViewRef)
    | HealthTick(view: ViewRef)
    | AppStateChange(next: AppStatus, now: int)
    | NavigationStateChange(canGoBack: bool)
    | PushTokenResolved(token: Option<string>)

  function Step(s: State, e: Event): Outcome {
    match e
    case LoadStart => Outcome(OnLoadStart(s), NoEffects)
    case LoadEnd => Outcome(OnLoadEnd(s), NoEffects)
    case LoadError => OnLoadError(s)
    case RetryFires => Outcome(OnRetryFires(s), NoEffects)
    case ContentTerminated(view) => OnContentTerminated(s, view)
    case PageMessage(msg, view) => OnMessage(s, msg, view)
    case HealthTick(view) => Outcome(s, OnHealthTick(s, view))
    case AppStateChange(next, now) => OnAppStateChange(s, next, now)
    case NavigationStateChange(b) => Outcome(OnNavigationStateChange(s, b), NoEffects)
    case PushTokenResolved(token) => Outcome(OnPushTokenResolved(s, token), NoEffects)
  }

  /** Only the remount fallback loses readiness, and it always bumps the key. */
  lemma ReadinessLostOnlyByRemount(s: State, e: Event)
    requires s.isWebViewReady && !Step(s, e).state.isWebViewReady
    ensures e.ContentTerminated? && !s.isReloading
    ensures Step(s, e).state.webViewKey == s.webViewKey + 1
  {
  }

  /** Only a fired retry and the remount fallback change the view key, each by one. */
  lemma KeyChangesOnlyByRemount(s: State, e: Event)
    requires Step(s, e).state.webViewKey != s.webViewKey
    ensures e.RetryFires? || (e.ContentTerminated? && !s.isReloading)
    ensures Step(s, e).state.webViewKey == s.webViewKey + 1
  {
  }
}
