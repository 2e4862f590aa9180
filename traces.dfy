/** Sequences of events delivered to the controller, and what they can and
    cannot lead to. The retry timer is made explicit: a `World` pairs the
    controller's state with the number of armed retry timers that have not
    fired yet, so that a fired retry is always one some load error armed. */
module Traces {
  import opened Lifecycle

  /** The state after delivering the events in order. */
  function Run(s: State, es: seq<Event>): State
    decreases |es|
  {
    if es == [] then s else Run(Step(s, es[0]).state, es[1..])
  }

  /** The effects of each event, in delivery order. */
  function Outputs(s: State, es: seq<Event>): (fxs: seq<Effects>)
    ensures |fxs| == |es|
    ensures es != [] ==> fxs[0] == Step(s, es[0]).effects
    decreases |es|
  {
    if es == [] then [] else [Step(s, es[0]).effects] + Outputs(Step(s, es[0]).state, es[1..])
  }

  /** Number of fired retry timers among the events. */
  function Fires(es: seq<Event>): nat
    decreases |es|
  {
    if es == [] then 0 else (if es[0].RetryFires? then 1 else 0) + Fires(es[1..])
  }

  /** An effect that begins a recovery: a reload, or a probe that may lead to one. */
  predicate BeginsRecovery(fx: Effects) {
    fx.reload || fx.injectReload || fx.injectBlankCheck
  }

  // ---------------------------------------------------------------------
  // The reentrancy guard

  /** While a reload is in flight, and until a load completes, no event
      starts another reload or probe, the guard stays set, and the view is
      remounted only by retry timers. */
  lemma {:induction false} GuardHoldsUntilLoadEnd(s: State, es: seq<Event>)
    requires s.isReloading
    requires forall i :: 0 <= i < |es| ==> !es[i].LoadEnd?
    ensures Run(s, es).isReloading
    ensures forall i :: 0 <= i < |es| ==> !BeginsRecovery(Outputs(s, es)[i])
    ensures Run(s, es).webViewKey == s.webViewKey + Fires(es)
    decreases |es|
  {
    if es != [] {
      var o := Step(s, es[0]);
      StepUnderGuard(s, es[0]);
      GuardHoldsUntilLoadEnd(o.state, es[1..]);
      forall i | 0 <= i < |es|
        ensures !BeginsRecovery(Outputs(s, es)[i])
      {
        if i > 0 {
          assert Outputs(s, es)[i] == Outputs(o.state, es[1..])[i - 1];
        }
      }
    }
  }

  /** One event under the guard, other than a completed load. */
  lemma StepUnderGuard(s: State, e: Event)
    requires s.isReloading && !e.LoadEnd?
    ensures Step(s, e).state.isReloading && !BeginsRecovery(Step(s, e).effects)
    ensures Step(s, e).state.webViewKey == s.webViewKey + if e.RetryFires? then 1 else 0
  {
    match e
    case LoadStart =>
    case LoadError =>
    case RetryFires =>
    case ContentTerminated(view) =>
    case PageMessage(msg, view) =>
    case HealthTick(view) =>
    case AppStateChange(next, now) =>
    case NavigationStateChange(b) =>
    case PushTokenResolved(token) =>
  }

  /** A crash answered by a successful reload: the guard is set once, a
      second crash in the meantime changes nothing, and the completed load
      clears the guard without remounting. */
  lemma CrashRecoveredByReload(s: State, view: ViewRef, again: ViewRef)
    requires !s.isReloading && view == Mounted(true, false)
    ensures var o := Step(s, ContentTerminated(view));
      && o.state.isReloading && o.effects.reload && o.state.webViewKey == s.webViewKey
      && Step(o.state, ContentTerminated(again)) == Outcome(o.state, NoEffects)
      && Step(o.state, PageMessage(BlankDetected, again)) == Outcome(o.state, NoEffects)
      && !Run(o.state, [LoadEnd]).isReloading
      && Run(o.state, [LoadEnd]).webViewKey == s.webViewKey
  {
  }

  /** A crash answered by a reload that then fails (a load error and no
      load end) leaves the guard set: from then on every health tick, crash
      and blank report is ignored until a load completes. A crash that falls
      back to a remount, by contrast, clears the guard at once. */
  lemma GuardStuckAfterFailedReload(s: State, es: seq<Event>, fallback: ViewRef)
    requires !s.isReloading
    requires forall i :: 0 <= i < |es| ==> !es[i].LoadEnd?
    requires !(fallback.Mounted? && fallback.canReload && !fallback.reloadThrows)
    ensures var s1 := Run(s, [ContentTerminated(Mounted(true, false)), LoadError]);
      && s1.isReloading && Run(s1, es).isReloading
      && (forall i :: 0 <= i < |es| ==> !BeginsRecovery(Outputs(s1, es)[i]))
    ensures var o := Step(s, ContentTerminated(fallback));
      !o.state.isReloading && o.state.webViewKey == s.webViewKey + 1
  {
    var crash := [ContentTerminated(Mounted(true, false)), LoadError];
    var s0 := Step(s, crash[0]).state;
    assert crash[1..] == [LoadError];
    assert Run(s, crash) == Run(s0, [LoadError]) == Step(s0, LoadError).state;
    GuardHoldsUntilLoadEnd(Run(s, crash), es);
  }

  // ---------------------------------------------------------------------
  // Readiness

  /** The splash screen is released at most once: readiness is never withdrawn. */
  lemma {:induction false} AppReadyIsPermanent(s: State, es: seq<Event>)
    requires s.appIsReady
    ensures Run(s, es).appIsReady
    decreases |es|
  {
    if es != [] {
      StepKeepsAppReady(s, es[0]);
      AppReadyIsPermanent(Step(s, es[0]).state, es[1..]);
    }
  }

  lemma StepKeepsAppReady(s: State, e: Event)
    requires s.appIsReady
    ensures Step(s, e).state.appIsReady
  {
    match e
    case PageMessage(msg, view) => assert OnMessage(s, msg, view).state.appIsReady;
    case _ =>
  }

  /** After the first successful load the custom spinner stays hidden until
      a crash remounts the view. */
  lemma {:induction false} SpinnerHiddenAfterFirstLoad(s: State, es: seq<Event>)
    requires s.isWebViewReady
    requires forall i :: 0 <= i < |es| ==> !es[i].ContentTerminated?
    ensures Run(s, es).isWebViewReady && !SpinnerVisible(Run(s, es))
    decreases |es|
  {
    if es != [] {
      StepKeepsViewReady(s, es[0]);
      SpinnerHiddenAfterFirstLoad(Step(s, es[0]).state, es[1..]);
    }
  }

  /** A crash that falls back to a remount brings the spinner back after a
      successful load: it shows through the next load start and hides again
      when that load completes. */
  lemma SpinnerReturnsAfterCrashRemount(s: State, fallback: ViewRef)
    requires !s.isReloading
    requires !(fallback.Mounted? && fallback.canReload && !fallback.reloadThrows)
    ensures var s1 := OnLoadEnd(s);
      var s2 := Step(s1, ContentTerminated(fallback)).state;
      var s3 := Step(s2, LoadStart).state;
      && !SpinnerVisible(s1) && SpinnerVisible(s2) && SpinnerVisible(s3)
      && s2.webViewKey == s.webViewKey + 1
      && !SpinnerVisible(Step(s3, LoadEnd).state)
  {
  }

  lemma StepKeepsViewReady(s: State, e: Event)
    requires s.isWebViewReady && !e.ContentTerminated?
    ensures Step(s, e).state.isWebViewReady
  {
    match e
    case PageMessage(msg, view) => assert OnMessage(s, msg, view).state.isWebViewReady;
    case _ =>
  }

  // ---------------------------------------------------------------------
  // Retry timers

  datatype World = World(ctl: State, pendingRetries: nat)

  /** Deliver one event. A retry timer can fire only if one is armed. */
  function Deliver(w: World, e: Event): World {
    if e.RetryFires? then
      if w.pendingRetries == 0 then w
      else World(OnRetryFires(w.ctl), w.pendingRetries - 1)
    else
      var o := Step(w.ctl, e);
      World(o.state, w.pendingRetries + if o.effects.scheduleRetry then 1 else 0)
  }

  function RunWorld(w: World, es: seq<Event>): World
    decreases |es|
  {
    if es == [] then w else RunWorld(Deliver(w, es[0]), es[1..])
  }

  /** Attempts made plus attempts armed stay within the budget. */
  predicate WithinBudget(w: World) {
    w.ctl.retryCount + w.pendingRetries <= MaxRetries
  }

  /** No load error arrives while a retry timer is still armed: each failed
      load waits for its own retry before the next failure. */
  predicate Paced(w: World, es: seq<Event>)
    decreases |es|
  {
    es == [] || (!(es[0].LoadError? && w.pendingRetries > 0) && Paced(Deliver(w, es[0]), es[1..]))
  }

  lemma DeliverKeepsBudget(w: World, e: Event)
    requires WithinBudget(w)
    requires !(e.LoadError? && w.pendingRetries > 0)
    ensures WithinBudget(Deliver(w, e))
  {
  }

  /** The retry budget: on a paced trace the attempt count never exceeds 3,
      whatever successes, crashes, messages and stray retries intervene. */
  lemma {:induction false} RetryBudgetKept(w: World, es: seq<Event>)
    requires WithinBudget(w) && Paced(w, es)
    ensures WithinBudget(RunWorld(w, es))
    ensures RunWorld(w, es).ctl.retryCount <= MaxRetries
    decreases |es|
  {
    if es != [] {
      DeliverKeepsBudget(w, es[0]);
      RetryBudgetKept(Deliver(w, es[0]), es[1..]);
    }
  }

  /** `n` failed loads, each followed by the firing of the retry it armed (if any). */
  function ErrorRetryRounds(n: nat): (es: seq<Event>)
    ensures |es| == 2 * n
  {
    if n == 0 then [] else [LoadError, RetryFires] + ErrorRetryRounds(n - 1)
  }

  function Min(a: int, b: int): int {
    if a < b then a else b
  }

  /** A chain of failures with their retries counts up to the budget and
      stops there; each retry remounts once, and once the budget is spent
      the error view is up. Such a chain is paced. */
  lemma {:induction false} ErrorRetryRoundsSaturate(w: World, n: nat)
    requires w.pendingRetries == 0 && w.ctl.retryCount <= MaxRetries
    ensures var r := RunWorld(w, ErrorRetryRounds(n));
      && r.pendingRetries == 0
      && r.ctl.retryCount == Min(w.ctl.retryCount + n, MaxRetries)
      && r.ctl.webViewKey == w.ctl.webViewKey + (r.ctl.retryCount - w.ctl.retryCount)
      && (n > 0 ==> (ErrorViewVisible(r.ctl) <==> w.ctl.retryCount + n >= MaxRetries))
    ensures Paced(w, ErrorRetryRounds(n))
    decreases n
  {
    if n > 0 {
      var round := [LoadError, RetryFires];
      ErrorRetryRound(w);
      var w2 := RunWorld(w, round);
      RunWorldAppend(w, round, ErrorRetryRounds(n - 1));
      PacedAppend(w, round, ErrorRetryRounds(n - 1));
      ErrorRetryRoundsSaturate(w2, n - 1);
      if n == 1 {
        assert RunWorld(w2, []) == w2;
      }
    }
  }

  /** One failure followed by the retry it armed, if any. */
  lemma ErrorRetryRound(w: World)
    requires w.pendingRetries == 0 && w.ctl.retryCount <= MaxRetries
    ensures var r := RunWorld(w, [LoadError, RetryFires]);
      && r.pendingRetries == 0 && r.ctl.webViewError
      && r.ctl.retryCount == Min(w.ctl.retryCount + 1, MaxRetries)
      && r.ctl.webViewKey == w.ctl.webViewKey + (r.ctl.retryCount - w.ctl.retryCount)
    ensures Paced(w, [LoadError, RetryFires])
  {
    var w1 := Deliver(w, LoadError);
    assert [LoadError, RetryFires][1..] == [RetryFires];
    assert RunWorld(w, [LoadError, RetryFires]) == RunWorld(w1, [RetryFires]) == Deliver(w1, RetryFires);
    assert Paced(w, [LoadError, RetryFires]) == Paced(w1, [RetryFires]);
  }

  lemma {:induction false} RunWorldAppend(w: World, a: seq<Event>, b: seq<Event>)
    ensures RunWorld(w, a + b) == RunWorld(RunWorld(w, a), b)
    decreases |a|
  {
    if a != [] {
      assert (a + b)[0] == a[0] && (a + b)[1..] == a[1..] + b;
      RunWorldAppend(Deliver(w, a[0]), a[1..], b);
    } else {
      assert a + b == b;
    }
  }

  lemma {:induction false} PacedAppend(w: World, a: seq<Event>, b: seq<Event>)
    ensures Paced(w, a + b) <==> Paced(w, a) && Paced(RunWorld(w, a), b)
    decreases |a|
  {
    if a != [] {
      assert (a + b)[0] == a[0] && (a + b)[1..] == a[1..] + b;
      PacedAppend(Deliver(w, a[0]), a[1..], b);
    } else {
      assert a + b == b;
    }
  }

  /** From launch, three failed loads with their retries leave the error
      view up after three remounts, and a further failure arms nothing. */
  lemma ThreeFailuresExhaustRetries(app: AppStatus)
    ensures var r := RunWorld(World(Init(app), 0), ErrorRetryRounds(3));
      && r.ctl.retryCount == 3 && r.ctl.webViewKey == 3
      && ErrorViewVisible(r.ctl) && r.pendingRetries == 0
      && !OnLoadError(r.ctl).effects.scheduleRetry
  {
    ErrorRetryRoundsSaturate(World(Init(app), 0), 3);
  }

  /** `n` failed loads, each reported as ended before its retry fires. */
  function ErrorEndRetryRounds(n: nat): (es: seq<Event>)
    ensures |es| == 3 * n
  {
    if n == 0 then [] else [LoadError, LoadEnd, RetryFires] + ErrorEndRetryRounds(n - 1)
  }

  /** If a failed load is also reported as ended, the reset undoes every
      attempt: from any count below 3, each round remounts once, the count is
      back at 1 after every round, and the error view never stays up. */
  lemma {:induction false} ErrorEndRetryRoundsNeverExhaust(w: World, n: nat)
    requires w.pendingRetries == 0 && w.ctl.retryCount < MaxRetries
    ensures var r := RunWorld(w, ErrorEndRetryRounds(n));
      && r.pendingRetries == 0
      && r.ctl.webViewKey == w.ctl.webViewKey + n
      && (n > 0 ==> r.ctl.retryCount == 1 && !ErrorViewVisible(r.ctl))
    decreases n
  {
    if n > 0 {
      var round := [LoadError, LoadEnd, RetryFires];
      var w1 := Deliver(w, LoadError);
      var w2 := Deliver(w1, LoadEnd);
      assert round[1..] == [LoadEnd, RetryFires] && round[1..][1..] == [RetryFires];
      assert RunWorld(w, round) == RunWorld(w2, [RetryFires]) == Deliver(w2, RetryFires);
      var w3 := RunWorld(w, round);
      assert w3.pendingRetries == 0 && w3.ctl.retryCount == 1 && !w3.ctl.webViewError;
      RunWorldAppend(w, round, ErrorEndRetryRounds(n - 1));
      ErrorEndRetryRoundsNeverExhaust(w3, n - 1);
      if n == 1 {
        assert RunWorld(w3, []) == w3;
      }
    }
  }

  /** A retry armed before a successful load still fires: it undoes the
      reset of the attempt count and remounts the freshly loaded view. */
  lemma StrayRetryAfterSuccess(w: World)
    requires w.pendingRetries == 1
    ensures var r := RunWorld(w, [LoadEnd, RetryFires]);
      && r.pendingRetries == 0
      && r.ctl == OnLoadEnd(w.ctl).(retryCount := 1, webViewKey := w.ctl.webViewKey + 1)
  {
  }

  /** Pacing is needed: two failures reported before the first retry fires
      (the view wires the same handler to both of its error callbacks) arm
      two retries at the last attempt and overrun the budget. */
  lemma OverlappingErrorsOverrun(w: World)
    requires w.pendingRetries == 0 && w.ctl.retryCount == MaxRetries - 1
    ensures !Paced(w, [LoadError, LoadError, RetryFires, RetryFires])
    ensures RunWorld(w, [LoadError, LoadError, RetryFires, RetryFires]).ctl.retryCount == MaxRetries + 1
  {
  }

  // ---------------------------------------------------------------------
  // App-state transitions

  /** Leaving the foreground at a nonzero time `t` and returning `d` ms
      later requests an update check exactly when `d` exceeds five minutes;
      the recorded time survives the return. */
  lemma AwayThenBack(s: State, away: AppStatus, t: int, d: int)
    requires s.appState == Active && IsAway(away) && t != 0
    ensures var o1 := Step(s, AppStateChange(away, t));
      var o2 := Step(o1.state, AppStateChange(Active, t + d));
      && !o1.effects.checkForUpdates
      && (o2.effects.checkForUpdates <==> d > UpdateThresholdMs)
      && o2.state.lastBackgroundTime == Some(t)
      && o2.state.appState == Active
  {
  }

  /** Six minutes away triggers a check; two minutes does not; a boundary
      of exactly five minutes does not either. */
  lemma AwayScenarios(s: State, t: int)
    requires s.appState == Active && t != 0
    ensures Outputs(s, [AppStateChange(Background, t), AppStateChange(Active, t + 360000)])[1].checkForUpdates
    ensures !Outputs(s, [AppStateChange(Background, t), AppStateChange(Active, t + 120000)])[1].checkForUpdates
    ensures !Outputs(s, [AppStateChange(Background, t), AppStateChange(Active, t + 300000)])[1].checkForUpdates
  {
    AwayThenBack(s, Background, t, 360000);
    AwayThenBack(s, Background, t, 120000);
    AwayThenBack(s, Background, t, 300000);
  }

  /** A time recorded as 0 is falsy in the source and never triggers a check. */
  lemma ZeroTimestampNeverChecks(s: State, away: AppStatus, d: int)
    requires s.appState == Active && IsAway(away)
    ensures !Step(Step(s, AppStateChange(away, 0)).state, AppStateChange(Active, d)).effects.checkForUpdates
  {
  }

  // ---------------------------------------------------------------------
  // Login and push-token registration

  /** Once a token is held, the message handler posts exactly that token for
      exactly that user, once; the token's arrival itself posts nothing. */
  lemma LoginAfterTokenRegisters(s: State, tok: string, uid: string, view: ViewRef)
    requires tok != "" && uid != ""
    ensures var fxs := Outputs(s, [PushTokenResolved(Some(tok)), PageMessage(LoginStatus(true, Some(uid)), view)]);
      && fxs[0].register == None
      && fxs[1] == NoEffects.(register := Some(Registration(tok, uid)))
    ensures Run(s, [PushTokenResolved(Some(tok)), PageMessage(LoginStatus(true, Some(uid)), view)]).currentUserId == Some(uid)
  {
    var es := [PushTokenResolved(Some(tok)), PageMessage(LoginStatus(true, Some(uid)), view)];
    var s1 := Step(s, es[0]).state;
    assert es[1..] == [es[1]];
    assert Run(s, es) == Run(s1, [es[1]]) == Step(s1, es[1]).state;
    assert Outputs(s, [PushTokenResolved(Some(tok)), PageMessage(LoginStatus(true, Some(uid)), view)])[1]
        == Outputs(s1, [PageMessage(LoginStatus(true, Some(uid)), view)])[0];
  }

  /** Login then logout: only the login posts the token, and the logout
      report forgets the user it recorded (a logout without a user id too). */
  lemma LogoutForgetsUser(s: State, tok: string, uid: string, loggedIn: bool, uid2: Option<string>, view: ViewRef)
    requires s.expoPushToken == tok && tok != "" && uid != ""
    requires !(loggedIn && HasText(uid2))
    ensures var es := [PageMessage(LoginStatus(true, Some(uid)), view), PageMessage(LoginStatus(loggedIn, uid2), view)];
      && Outputs(s, es)[0].register == Some(Registration(tok, uid))
      && Outputs(s, es)[1] == NoEffects
      && Run(s, es) == s.(currentUserId := None)
  {
    var es := [PageMessage(LoginStatus(true, Some(uid)), view), PageMessage(LoginStatus(loggedIn, uid2), view)];
    var s1 := Step(s, es[0]).state;
    assert es[1..] == [es[1]];
    assert Run(s, es) == Run(s1, [es[1]]) == Step(s1, es[1]).state;
    assert Outputs(s, es)[1] == Outputs(s1, [es[1]])[0];
  }
}
