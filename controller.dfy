/** The view lifecycle controller as the app keeps it: mutable fields that
    each event handler updates in place. Every handler is proved to move the
    fields exactly as the matching transition of `Lifecycle` does and to
    return that transition's effects, so the properties proved about
    `Lifecycle` and `Traces` hold of the running controller. */
module Controller {
  import opened Lifecycle

  class WebViewController {
    var loading: bool
    var webViewError: bool
    var retryCount: nat
    var appIsReady: bool
    var isWebViewReady: bool
    var webViewKey: nat
    var isReloading: bool
    var appState: AppStatus
    var lastBackgroundTime: Option<int>
    var currentUserId: Option<string>
    var expoPushToken: string
    var canGoBack: bool

    /** The fields as one value of the pure model. */
    function Snapshot(): State
      reads this
    {
      State(loading, webViewError, retryCount, appIsReady, isWebViewReady, webViewKey,
            isReloading, appState, lastBackgroundTime, currentUserId, expoPushToken, canGoBack)
    }

    constructor (initial: AppStatus)
      ensures Snapshot() == Init(initial)
    {
      loading := true;
      webViewError := false;
      retryCount := 0;
      appIsReady := false;
      isWebViewReady := false;
      webViewKey := 0;
      isReloading := false;
      appState := initial;
      lastBackgroundTime := None;
      currentUserId := None;
      expoPushToken := "";
      canGoBack := false;
    }

    method HandleWebViewError() returns (fx: Effects)
      modifies this
      ensures Snapshot() == OnLoadError(old(Snapshot())).state
      ensures fx == OnLoadError(old(Snapshot())).effects
    {
      webViewError := true;
      loading := false;
      appIsReady := true;
      fx := NoEffects;
      if retryCount < MaxRetries {
        fx := fx.(scheduleRetry := true);
      }
    }

    /** The body of the retry timer armed by HandleWebViewError. */
    method RetryFires()
      modifies this
      ensures Snapshot() == OnRetryFires(old(Snapshot()))
    {
      retryCount := retryCount + 1;
      webViewKey := webViewKey + 1;
    }

    method HandleWebViewLoadStart()
      modifies this
      ensures Snapshot() == OnLoadStart(old(Snapshot()))
    {
      loading := true;
      webViewError := false;
    }

    method HandleWebViewLoadEnd()
      modifies this
      ensures Snapshot() == OnLoadEnd(old(Snapshot()))
    {
      loading := false;
      webViewError := false;
      retryCount := 0;
      appIsReady := true;
      isWebViewReady := true;
      isReloading := false;
    }

    method HandleMessage(msg: Message, view: ViewRef) returns (fx: Effects)
      modifies this
      ensures Snapshot() == OnMessage(old(Snapshot()), msg, view).state
      ensures fx == OnMessage(old(Snapshot()), msg, view).effects
    {
      fx := NoEffects;
      match msg
      case LoginStatus(loggedIn, uid) =>
        if loggedIn && HasText(uid) {
          currentUserId := uid;
          if expoPushToken != "" {
            fx := fx.(register := Some(Registration(expoPushToken, uid.value)));
          }
        } else {
          currentUserId := None;
        }
      case OpenSettings =>
        fx := fx.(openSettings := true);
      case BlankDetected =>
        if !isReloading && view.Mounted? {
          isReloading := true;
          if view.canReload {
            fx := fx.(reload := true);
          } else {
            fx := fx.(injectReload := true);
          }
        }
      case Unrecognized =>
      case Malformed =>
    }

    method HandleContentTerminated(view: ViewRef) returns (fx: Effects)
      modifies this
      ensures Snapshot() == OnContentTerminated(old(Snapshot()), view).state
      ensures fx == OnContentTerminated(old(Snapshot()), view).effects
    {
      fx := NoEffects;
      if isReloading {
        return;
      }
      isReloading := true;
      if view.Mounted? && view.canReload {
        fx := fx.(reload := true);
        if !view.reloadThrows {
          return;
        }
      }
      // no reload, or reload threw: remount under a new key
      isReloading := false;
      isWebViewReady := false;
      loading := true;
      webViewKey := webViewKey + 1;
    }

    /** The body of the 60-second interval; it only reads the fields. */
    method HealthTick(view: ViewRef) returns (fx: Effects)
      ensures fx.injectBlankCheck <==> !isReloading && isWebViewReady && view.Mounted?
      ensures fx == OnHealthTick(Snapshot(), view)
    {
      fx := NoEffects;
      if isReloading {
        return;
      }
      if isWebViewReady && view.Mounted? {
        fx := fx.(injectBlankCheck := true);
      }
    }

    method HandleAppStateChange(next: AppStatus, now: int) returns (fx: Effects)
      modifies this
      ensures Snapshot() == OnAppStateChange(old(Snapshot()), next, now).state
      ensures fx == OnAppStateChange(old(Snapshot()), next, now).effects
    {
      fx := NoEffects;
      if appState == Active && IsAway(next) {
        lastBackgroundTime := Some(now);
      }
      if IsAway(appState) && next == Active {
        if lastBackgroundTime.Some? && lastBackgroundTime.value != 0 {
          var timeInBackground := now - lastBackgroundTime.value;
          if timeInBackground > UpdateThresholdMs {
            fx := fx.(checkForUpdates := true);
          }
        }
      }
      appState := next;
    }

    method HandleNavigationStateChange(b: bool)
      modifies this
      ensures Snapshot() == OnNavigationStateChange(old(Snapshot()), b)
    {
      canGoBack := b;
    }

    method HandlePushTokenResolved(token: Option<string>)
      modifies this
      ensures Snapshot() == OnPushTokenResolved(old(Snapshot()), token)
    {
      expoPushToken := if token.Some? then token.value else "";
    }

    /** The hardware back-button listener; it only reads the fields. */
    method BackPress() returns (handled: bool)
      ensures handled <==> canGoBack
      ensures handled <==> BackAction(Snapshot()) == GoBackInPage
    {
      handled := canGoBack;
    }
  }
}
