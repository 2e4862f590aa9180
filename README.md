# Embedded-browser recovery controller

This project models the part of the app shell (`App.js`) that looks after
the one embedded browser view showing the hosted site. That part reacts to a
fixed set of events: load start, load end and load error; the firing of the
delayed retry; the death of the view's content process; page messages
(`LOGIN_STATUS`, `OPEN_SETTINGS`, `BLANK_DETECTED`); the 60-second health
check; app-state changes; navigation-state reports; and the settling of the
push-token request. For each event it decides what to do. It may do nothing,
reload the view in place, remount it (by bumping `webViewKey`), arm a retry,
show the static error view, ask for an update check, or register the push
token for the logged-in user.

The model has three modules:

- `Lifecycle` (lifecycle.dfy) is the pure specification. It holds the
  controller's fields as a `State` value and has one transition function per
  event. Events that only change fields (`OnLoadStart`, `OnLoadEnd`,
  `OnRetryFires`, `OnNavigationStateChange`, `OnPushTokenResolved`) return
  the new `State`; `OnHealthTick` changes nothing and returns only
  `Effects`; the others return both as an `Outcome`. `Step` dispatches any
  event and always returns an `Outcome`. It also holds
  the two render conditions, `SpinnerVisible` (App.js:496) and
  `ErrorViewVisible` (App.js:502), and the back-button decision `BackAction`
  (App.js:280-286).
- `Controller` (controller.dfy) is the controller as the source keeps it: a
  class whose fields the handlers assign in place. Each handler is proved to
  leave `Snapshot()` equal to the matching `Lifecycle` transition of the old
  snapshot, and to return that transition's effects.
- `Traces` (traces.dfy) covers whole event sequences. A `World` pairs the
  state with the number of armed retry timers that have not fired yet. These
  lemmas are about what sequences of events can and cannot lead to.

The platform values a handler reads are parameters. `Date.now()` becomes
`now: int`. `webViewRef.current` becomes a `ViewRef`: no view, or a mounted
view whose `reload` may be missing or may throw. Timers, the update service,
the push server, the settings screen and the page's injected scripts appear
only as flags in `Effects`.

### Behaviour of the code the model keeps

- `loading` starts out `true` (App.js:70).
- `lastBackgroundTime` is never cleared after the foreground check
  (App.js:254-262).
- `BLANK_DETECTED` only reloads, or tells the page to reload itself. It never
  remounts (App.js:197-201).
- If `reload()` throws during `BLANK_DETECTED`, the outer `catch`
  (App.js:204-206) swallows it, and `isReloading` stays set until the next
  completed load.
- A retry armed before a successful load still fires afterwards. It sets the
  attempt count back to 1 and remounts the freshly loaded view
  (`StrayRetryAfterSuccess`).
- The retry budget holds only if each failed load waits for its own retry.
  `onError` and `onHttpError` both go to the same handler. At the last
  attempt (count 2), two failures reported before the first retry fires arm
  two retries, and the count reaches 4 (`OverlappingErrorsOverrun`). `RetryBudgetKept` proves the bound
  for traces where this does not happen (called paced traces in the model).
- The guard `isReloadingRef` is cleared only by a completed load
  (App.js:114) and by the remount fallback, which clears it before the new
  view loads (App.js:362, 369). After a crash whose reload is accepted, a
  reload that fails (a load error and no load end) leaves the guard set, and
  from then on every health tick, crash and blank report is ignored
  (App.js:348-353, 380-383) until some load completes
  (`GuardStuckAfterFailedReload`, `GuardHoldsUntilLoadEnd`).
- The tests the source writes as JavaScript truthiness are modelled exactly.
  A recorded background time of 0 counts as no time at all (App.js:254). An
  empty user id or an empty token counts as absent (App.js:180-182).
- The model leaves the order of the view's callbacks free. Any event may
  follow any other, and a load end counts as a successful load, as the
  source's comment at App.js:107 says. The lemmas over all event sequences
  rely on nothing more. Some platforms may also report a load end after a
  failed load; the source does not say so, and the model does not assume it.
  If they do, a failure is followed by a load end that resets the count
  before its retry fires. Then, starting from any count below 3, the count
  is back at 1 after every round and the error view never stays up
  (`ErrorEndRetryRoundsNeverExhaust`). In that case
  `ErrorRetryRounds` describes a sequence such a platform never delivers.

## Model

| member | source | states |
|---|---|---|
| `Lifecycle.Init` | App.js:65-79 | initial fields: loading true; no error, readiness, retries, key, guard, timestamp, user, token or back history; app state as given |
| `Lifecycle.OverlaysExclusive` | App.js:496-506 | the custom spinner and the static error view are never visible at the same time |
| `Lifecycle.BackAction` | App.js:280-286 | the back press is consumed (in-page back) iff the page has back history, otherwise it goes to the system |
| `Lifecycle.OnLoadStart` | App.js:102-105 | load start sets loading and clears the error, and nothing else; the error view hides, and the spinner shows iff the view is not ready: at launch, and again after a crash remount (App.js:363, 371) |
| `Lifecycle.OnLoadEnd` | App.js:108-115 | load end clears loading, error and retries, marks app and view ready, clears the reload guard, and keeps the view key; neither overlay is visible afterwards |
| `Lifecycle.OnLoadError` | App.js:83-99 | load error sets the error, clears loading, marks the app ready, and changes nothing else; a retry is armed iff fewer than 3 attempts were made, and the error view is up iff none was armed |
| `Lifecycle.OnRetryFires` | App.js:91-95 | a fired retry adds exactly one to the attempt count and one to the view key, and touches nothing else |
| `Lifecycle.OnContentTerminated` | App.js:344-374 | a no-op while the guard is set; with a working reload, sets the guard, calls reload and keeps the key; with no view, no reload or a throwing reload, remounts (key+1, not ready, loading, guard clear) |
| `Lifecycle.OnMessage` | App.js:175-207 | a login records the user and registers the held token for that user (nothing if no token); anything else in a login report clears the user; settings opens the settings screen; a blank report sets the guard and reloads (or injects a reload) only when no guard is set and a view is mounted; the key never changes; malformed or unknown messages change nothing |
| `Lifecycle.OnHealthTick` | App.js:378-396 | the tick requests the blank probe iff the guard is clear, the view is ready and mounted; it requests nothing else and changes no state |
| `Lifecycle.OnAppStateChange` | App.js:239-265 | the time is recorded only on active to inactive/background; an update check is requested iff returning from inactive/background to active with a truthy recorded time more than 300000 ms old (strictly); the app state always becomes the new one; the timestamp is otherwise kept |
| `Lifecycle.OnNavigationStateChange` | App.js:523-525 | the page's back-history flag is stored and nothing else changes |
| `Lifecycle.OnPushTokenResolved` | App.js:302-304 | a token is held afterwards iff the request settled with a non-empty token, and it is that token |
| `Lifecycle.ReadinessLostOnlyByRemount` | App.js:344-374 | only the remount fallback after a crash withdraws view readiness, and it always bumps the key |
| `Lifecycle.KeyChangesOnlyByRemount` | App.js:90-372 | the view key changes only on a fired retry (App.js:93-94) or a crash remount (App.js:362-372), and then by exactly one |
| `Controller.WebViewController.constructor` | App.js:64-79 | the fields start as `Lifecycle.Init` |
| `Controller.WebViewController.HandleWebViewError` | App.js:83-99 | in-place update equal to `OnLoadError`, returning its effects |
| `Controller.WebViewController.RetryFires` | App.js:91-95 | in-place update equal to `OnRetryFires` |
| `Controller.WebViewController.HandleWebViewLoadStart` | App.js:102-105 | in-place update equal to `OnLoadStart` |
| `Controller.WebViewController.HandleWebViewLoadEnd` | App.js:108-115 | in-place update equal to `OnLoadEnd` |
| `Controller.WebViewController.HandleMessage` | App.js:175-207 | in-place update and effects equal to `OnMessage` |
| `Controller.WebViewController.HandleContentTerminated` | App.js:344-374 | in-place update and effects equal to `OnContentTerminated` |
| `Controller.WebViewController.HealthTick` | App.js:378-396 | reads only; the probe is requested iff guard clear, view ready and view mounted; equals `OnHealthTick` |
| `Controller.WebViewController.HandleAppStateChange` | App.js:239-265 | in-place update and effects equal to `OnAppStateChange` |
| `Controller.WebViewController.HandleNavigationStateChange` | App.js:523-525 | in-place update equal to `OnNavigationStateChange` |
| `Controller.WebViewController.HandlePushTokenResolved` | App.js:302-304 | in-place update equal to `OnPushTokenResolved` |
| `Controller.WebViewController.BackPress` | App.js:280-286 | reads only; reports the press handled iff the page can go back, matching `BackAction` |
| `Traces.GuardHoldsUntilLoadEnd` | App.js:344-396 | while a reload is in flight and until a load completes, no event starts a reload or a probe, the guard stays set, and the key moves only with fired retries |
| `Traces.GuardStuckAfterFailedReload` | App.js:344-383 | a crash whose reload is accepted, then a load error, leaves the guard set, and no later event short of a load end clears it or starts a reload or probe; a crash that falls back to a remount clears the guard and bumps the key |
| `Traces.CrashRecoveredByReload` | App.js:344-374 | crash, then reload: the guard is set once, a second crash or blank report meanwhile changes nothing, and the completed load clears the guard with the key unchanged |
| `Traces.AppReadyIsPermanent` | App.js:83-115 | once the app is ready (splash released) no sequence of events withdraws it |
| `Traces.SpinnerReturnsAfterCrashRemount` | App.js:358-372 | the spinner condition of App.js:496: after a successful load the spinner is hidden; a crash that falls back to a remount bumps the key and shows it again, through the next load start, until that load completes |
| `Traces.SpinnerHiddenAfterFirstLoad` | App.js:496 | after a successful load the custom spinner stays hidden on any sequence without a crash |
| `Traces.DeliverKeepsBudget` | App.js:90-95 | one paced event keeps attempts made plus retries armed within 3 |
| `Traces.RetryBudgetKept` | App.js:90-95 | on every paced trace the attempt count never exceeds 3, whatever successes, crashes or stray retries intervene |
| `Traces.ErrorRetryRoundsSaturate` | App.js:83-99 | n failures, each followed by its own retry, bring the count to min(start+n, 3) with one remount per retry, show the error view once the budget is spent, and form a paced trace |
| `Traces.ErrorRetryRound` | App.js:83-99 | one failure and its retry: the count goes up by one up to 3, the key by as much, the error stays set, nothing stays armed, and the pair is paced |
| `Traces.ErrorEndRetryRoundsNeverExhaust` | App.js:83-115 | from any count below 3, failures each followed by a load end before their retry: one remount per round, count back at 1 after every round, error view hidden |
| `Traces.ThreeFailuresExhaustRetries` | App.js:83-99 | from launch, three failures with retries give count 3, key 3 and the error view; a fourth failure arms nothing |
| `Traces.StrayRetryAfterSuccess` | App.js:90-115 | a retry armed before a successful load still fires: count 1, key+1, everything else as after the load |
| `Traces.OverlappingErrorsOverrun` | App.js:90-95 | from count 2 with nothing armed, two failures before the first retry fires form an unpaced trace that drives the count to 4 |
| `Traces.AwayThenBack` | App.js:239-265 | away at a nonzero time t, back at t+d: no check on leaving; a check on return iff d > 300000; the recorded time survives |
| `Traces.AwayScenarios` | App.js:254-262 | six minutes away checks; two minutes, and exactly five minutes, do not |
| `Traces.ZeroTimestampNeverChecks` | App.js:254 | a background time recorded as 0 is falsy and never triggers a check |
| `Traces.LoginAfterTokenRegisters` | App.js:179-187 | once a token is held, the message handler posts that (token, user) pair exactly once for a login report and records the user (the token-request effect may post it again; see Left out) |
| `Traces.LogoutForgetsUser` | App.js:179-187 | login then logout: only the login posts the token, and afterwards the user is forgotten and every other field is as before |

## Left out

- JSX layout, styles, the status bar setup and the WebView props (App.js:272-279, 475-584): presentation only. The model keeps only the two visibility conditions and the key and callback wiring that the handlers stand for.
- `registerForPushNotificationsAsync`, the notification-received and notification-response listeners and the effect that registers them (App.js:296-341, 420-470): permission and OS push plumbing built on async awaits. The model keeps only the token they deliver, as `PushTokenResolved`. This function itself posts `registerPushToken(token, currentUserId)` when a user is known (App.js:461-462). The effect depends on `currentUserId` (App.js:341), so every change of `currentUserId` re-runs it. The app as a whole therefore posts the pair a second time after a login that changes the user while a token is held, and posts once, through that path, after a login made before any token is held. The model's message handler posts nothing in that second case.
- The bodies of `checkForUpdates` (App.js:152-172), `registerPushToken` (App.js:402-418) and `Linking.openSettings`: foreign async I/O with outcomes that are only logged. They appear as the `checkForUpdates`, `register` and `openSettings` effects.
- The launch check for updates after the splash screen hides (App.js:210-233): timer and splash-screen I/O. The model exposes `appIsReady`, which that effect waits for, and proves it is never withdrawn (`AppReadyIsPermanent`).
- `JSON.parse` of page messages: a message is an already-parsed `Message`. `Malformed` covers every payload whose parsing or field access throws.
- The injected JavaScript strings (App.js:123-149, 386-394): they run inside the hosted page. The blank probe is the `injectBlankCheck` effect, and the page's answer is a later `BlankDetected` message.
- Real timers, `Date.now` and React's asynchronous state batching and closure capture. The retry timer and the health check are explicit events, with their delays kept as constants. Each handler reads the current state. `webViewReadyRef` is taken to be in step with `isWebViewReady`. The one-render lag of that ref's effect (App.js:118-120) is not modelled.
- App-state strings become the `AppStatus` datatype. The regular expression `/inactive|background/` becomes `IsAway`. A missing initial state, where `.match` would throw, is not modelled.
- Exceptions thrown by `injectJavaScript`, and by `goBack()` when no view is mounted, are not modelled. `BackAction` assumes the handle is present when the page reports back history.
- app.config.js: static build configuration with no logic.
