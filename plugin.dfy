/**
 * The plugin itself: the static session fields of ParsePlugin as the fields
 * of one object, the transitions that update them, and `execute` with the
 * commands it dispatches. Each Cordova thread-pool task and each SDK
 * completion callback runs inline, to completion, as one step.
 */
module Plugin {
  import opened Wrappers
  import opened Json
  import StringMap
  import opened Routing
  import opened Gate

  /** What a command reports through its CallbackContext. */
  datatype Reply = Success(value: Option<string>) | Error(message: string)

  /** A call into the Parse SDK; the model records that it was issued, not what it does. */
  datatype SdkCall =
    | EnableLocalDatastore
    | ParseInitialize(appId: string, clientKey: string)
    | SaveInstallation
    | ReadInstallationId
    | ReadInstallationObjectId
    | ReadSubscriptions
    | SubscribeChannel(channel: string)
    | UnsubscribeChannel(channel: string)
    | TrackAnalyticsEvent(name: string, dimensions: map<string, string>)

  /**
   * What the SDK answers: the installation id, the object id, the text of the
   * subscription set, and the failure message (if any) that the subscribe and
   * unsubscribe completion callbacks receive.
   */
  datatype SdkAnswers = SdkAnswers(
    installationId: string,
    objectId: string,
    subscriptions: string,
    subscribeFailure: Option<string>,
    unsubscribeFailure: Option<string>)

  /** How `execute` ends: it returns a boolean, or a JSONException escapes it. */
  datatype ExecResult = Returned(handled: bool) | ThrewJsonException

  /** `trackEvent` can read its arguments: an object of strings at index 1 and a name at index 0. */
  predicate TrackEventReadable(args: seq<JsonValue>)
  {
    ArgObject(args, 1).Some? && StringMap.AllStrings(ArgObject(args, 1).value) && ArgString(args, 0).Some?
  }

  /**
   * `call` is the analytics event `trackEvent` sends for `args`: named by
   * `args[0]`, with the dimensions object at index 1 as its map (the object's
   * keys, each bound to its last string value).
   */
  ghost predicate IsTrackedEvent(call: SdkCall, args: seq<JsonValue>)
    requires TrackEventReadable(args)
  {
    var dims := ArgObject(args, 1).value;
    call.TrackAnalyticsEvent? && call.name == ArgString(args, 0).value
    && call.dimensions.Keys == StringMap.Keys(dims)
    && forall i :: 0 <= i < |dims| && StringMap.IsLastBinding(dims, i) ==>
         call.dimensions[dims[i].key] == dims[i].value.s
  }

  /**
   * The process-wide state of ParsePlugin. The Java fields are static; one
   * object of this class stands for them, whatever plugin instance runs.
   */
  class ParsePlugin {
    var eventCallback: Option<string>      // sEventCallback
    var webView: bool                      // sWebView != null
    var foreground: bool                   // sForeground
    var launchNotification: Option<string> // sLaunchNotification, as its toString() text; None for null
    var initialized: bool                  // sInitialized
    ghost var sent: seq<string>            // every snippet passed to sWebView.sendJavascript
    var sdkCalls: seq<SdkCall>             // every SDK call issued, in order

    /** The four gate fields as a `Gate.Session`. */
    function State(): Session
      reads this
    {
      Session(eventCallback, webView, foreground, launchNotification)
    }

    /** The fields as the static initialisers leave them when the class is loaded. */
    constructor ()
      ensures State() == Initial && !initialized
      ensures sent == [] && sdkCalls == []
    {
      eventCallback, webView, foreground, launchNotification := None, false, false, None;
      initialized := false;
      sent, sdkCalls := [], [];
    }

    /**
     * `initializeParseWithApplication`: the application's two resource strings
     * are its arguments. It is the only operation that sets the latch.
     */
    method InitializeParseWithApplication(appId: string, clientKey: string)
      modifies this`initialized, this`sdkCalls
      ensures initialized
      ensures sdkCalls == old(sdkCalls) + [EnableLocalDatastore, ParseInitialize(appId, clientKey), SaveInstallation]
      ensures State() == old(State()) && sent == old(sent)
    {
      sdkCalls := sdkCalls + [EnableLocalDatastore, ParseInitialize(appId, clientKey), SaveInstallation];
      initialized := true;
    }

    /** `isInForeground`. */
    function IsInForeground(): bool
      reads this
    {
      foreground
    }

    /**
     * `javascriptEventCallback`: one snippet when a non-empty callback and a
     * webview are there, nothing otherwise; never a change of state.
     */
    method JavascriptEventCallback(payload: string)
      modifies this`sent
      ensures State() == old(State())
      ensures eventCallback.Some? && eventCallback.value != "" && webView ==>
        sent == old(sent) + ["javascript:" + eventCallback.value + "(" + payload + ")"]
      ensures !(eventCallback.Some? && eventCallback.value != "" && webView) ==> sent == old(sent)
      ensures sent == old(sent) + CallbackOutput(old(State()), payload)
    {
      if eventCallback.Some? && eventCallback.value != "" && webView {
        var snippet := "javascript:" + eventCallback.value + "(" + payload + ")";
        sent := sent + [snippet];
      }
    }

    /** `setLaunchNotification`: last write wins, nothing else changes; a `null` payload empties the slot. */
    method SetLaunchNotification(payload: Option<string>)
      modifies this`launchNotification
      ensures launchNotification == payload
      ensures eventCallback == old(eventCallback) && webView == old(webView) && foreground == old(foreground)
      ensures sent == old(sent)
      ensures State() == Step(old(State()), Notify(payload)).0
    {
      launchNotification := payload;
    }

    /**
     * `handleLaunchNotification`: in the background, or with nothing pending,
     * nothing happens. Otherwise the pending payload goes through
     * `javascriptEventCallback` once and is cleared, even when that sent nothing.
     */
    method HandleLaunchNotification()
      modifies this`launchNotification, this`sent
      ensures !old(foreground) || old(launchNotification).None? ==>
        launchNotification == old(launchNotification) && sent == old(sent)
      ensures old(foreground) && old(launchNotification).Some? ==>
        launchNotification.None? && sent == old(sent) + CallbackOutput(old(State()), old(launchNotification).value)
      ensures eventCallback == old(eventCallback) && webView == old(webView) && foreground == old(foreground)
      ensures State() == Flush(old(State())).0 && sent == old(sent) + Flush(old(State())).1
    {
      if IsInForeground() && launchNotification.Some? {
        JavascriptEventCallback(launchNotification.value);
        launchNotification := None;
      }
    }

    /** The lifecycle hook `initialize(CordovaInterface, CordovaWebView)`: the plugin is attached to its webview. */
    method Initialize()
      modifies this`eventCallback, this`webView, this`foreground
      ensures eventCallback.None? && webView && foreground
      ensures launchNotification == old(launchNotification) && sent == old(sent)
      ensures State() == Step(old(State()), Attach).0
    {
      eventCallback := None;
      webView := true;
      foreground := true;
    }

    /** `onDestroy`: callback and webview are dropped; the pending notification is kept. */
    method OnDestroy()
      modifies this`eventCallback, this`webView, this`foreground
      ensures eventCallback.None? && !webView && !foreground
      ensures launchNotification == old(launchNotification) && sent == old(sent)
      ensures State() == Step(old(State()), Destroy).0
    {
      eventCallback := None;
      webView := false;
      foreground := false;
    }

    /** `onPause`: only the foreground flag changes. */
    method OnPause()
      modifies this`foreground
      ensures !foreground
      ensures eventCallback == old(eventCallback) && webView == old(webView)
      ensures launchNotification == old(launchNotification) && sent == old(sent)
      ensures State() == Step(old(State()), Pause).0
    {
      foreground := false;
    }

    /** `onResume`: only the foreground flag changes; it does not flush. */
    method OnResume()
      modifies this`foreground
      ensures foreground
      ensures eventCallback == old(eventCallback) && webView == old(webView)
      ensures launchNotification == old(launchNotification) && sent == old(sent)
      ensures State() == Step(old(State()), Resume).0
    {
      foreground := true;
    }

    /**
     * The `registerCallback` command. Reading `args[0]` is the only step that
     * can throw; it comes before anything changes, so a failure reports
     * "JSONException" and leaves the session as it was. Otherwise the callback
     * is stored, success is reported, and the launch notification is flushed.
     */
    method RegisterCallback(args: seq<JsonValue>) returns (replies: seq<Reply>)
      modifies this`eventCallback, this`launchNotification, this`sent
      ensures |replies| == 1
      ensures webView == old(webView) && foreground == old(foreground)
      ensures ArgString(args, 0).None? ==>
        replies == [Error("JSONException")] && State() == old(State()) && sent == old(sent)
      ensures ArgString(args, 0).Some? ==>
        replies == [Success(None)] && eventCallback == ArgString(args, 0)
      ensures ArgString(args, 0).Some? ==>
        State() == Step(old(State()), Register(ArgString(args, 0).value)).0
        && sent == old(sent) + Step(old(State()), Register(ArgString(args, 0).value)).1
    {
      var name := ArgString(args, 0);
      if name.None? {
        replies := [Error("JSONException")];
        return;
      }
      eventCallback := name;
      replies := [Success(None)];
      HandleLaunchNotification();
    }

    /**
     * The `initialize` command. With the latch set it returns at once, with no
     * reply and no SDK call. Otherwise it reads the application id and the
     * client key, initialises the SDK and saves the installation. It never sets
     * the latch itself.
     */
    method InitializeCommand(args: seq<JsonValue>) returns (replies: seq<Reply>)
      modifies this`sdkCalls
      ensures initialized == old(initialized)
      ensures old(initialized) ==> replies == [] && sdkCalls == old(sdkCalls)
      ensures !old(initialized) && (ArgString(args, 0).None? || ArgString(args, 1).None?) ==>
        replies == [Error("JSONException")] && sdkCalls == old(sdkCalls)
      ensures !old(initialized) && ArgString(args, 0).Some? && ArgString(args, 1).Some? ==>
        replies == [Success(None)]
        && sdkCalls == old(sdkCalls) + [ParseInitialize(ArgString(args, 0).value, ArgString(args, 1).value), SaveInstallation]
    {
      if initialized {
        return [];
      }
      var appId := ArgString(args, 0);
      var clientKey := ArgString(args, 1);
      if appId.None? || clientKey.None? {
        return [Error("JSONException")];
      }
      sdkCalls := sdkCalls + [ParseInitialize(appId.value, clientKey.value), SaveInstallation];
      replies := [Success(None)];
    }

    /** The `getInstallationId` command: success with the SDK's installation id. */
    method GetInstallationId(installationId: string) returns (replies: seq<Reply>)
      modifies this`sdkCalls
      ensures replies == [Success(Some(installationId))]
      ensures sdkCalls == old(sdkCalls) + [ReadInstallationId]
    {
      sdkCalls := sdkCalls + [ReadInstallationId];
      replies := [Success(Some(installationId))];
    }

    /** The `getInstallationObjectId` command: success with the SDK's object id. */
    method GetInstallationObjectId(objectId: string) returns (replies: seq<Reply>)
      modifies this`sdkCalls
      ensures replies == [Success(Some(objectId))]
      ensures sdkCalls == old(sdkCalls) + [ReadInstallationObjectId]
    {
      sdkCalls := sdkCalls + [ReadInstallationObjectId];
      replies := [Success(Some(objectId))];
    }

    /** The `getSubscriptions` command: success with the text of the subscription set. */
    method GetSubscriptions(subscriptions: string) returns (replies: seq<Reply>)
      modifies this`sdkCalls
      ensures replies == [Success(Some(subscriptions))]
      ensures sdkCalls == old(sdkCalls) + [ReadSubscriptions]
    {
      sdkCalls := sdkCalls + [ReadSubscriptions];
      replies := [Success(Some(subscriptions))];
    }

    /**
     * The `subscribe` command: when the SDK's completion callback reports no
     * failure, the subscriptions are read, the installation saved and success
     * reported; otherwise the failure message is the error.
     */
    method Subscribe(channel: string, failure: Option<string>) returns (replies: seq<Reply>)
      modifies this`sdkCalls
      ensures failure.None? ==>
        replies == [Success(None)] && sdkCalls == old(sdkCalls) + [SubscribeChannel(channel), ReadSubscriptions, SaveInstallation]
      ensures failure.Some? ==>
        replies == [Error(failure.value)] && sdkCalls == old(sdkCalls) + [SubscribeChannel(channel)]
    {
      sdkCalls := sdkCalls + [SubscribeChannel(channel)];
      if failure.None? {
        sdkCalls := sdkCalls + [ReadSubscriptions, SaveInstallation];
        replies := [Success(None)];
      } else {
        replies := [Error(failure.value)];
      }
    }

    /** The `unsubscribe` command: success, or the failure message of the SDK's completion callback. */
    method Unsubscribe(channel: string, failure: Option<string>) returns (replies: seq<Reply>)
      modifies this`sdkCalls
      ensures sdkCalls == old(sdkCalls) + [UnsubscribeChannel(channel)]
      ensures failure.None? ==> replies == [Success(None)]
      ensures failure.Some? ==> replies == [Error(failure.value)]
    {
      sdkCalls := sdkCalls + [UnsubscribeChannel(channel)];
      replies := if failure.None? then [Success(None)] else [Error(failure.value)];
    }

    /**
     * The `trackEvent` branch of `execute` with the `trackEvent` helper: the
     * dimensions object at index 1 is turned into a string map and the name at
     * index 0 read; any failure on the way reports "JSONMappingException" and
     * sends no event to the SDK.
     */
    method TrackEventCommand(args: seq<JsonValue>) returns (replies: seq<Reply>)
      modifies this`sdkCalls
      ensures !TrackEventReadable(args) ==> replies == [Error("JSONMappingException")] && sdkCalls == old(sdkCalls)
      ensures TrackEventReadable(args) ==>
        replies == [Success(None)]
        && |sdkCalls| == |old(sdkCalls)| + 1 && sdkCalls[..|old(sdkCalls)|] == old(sdkCalls)
        && IsTrackedEvent(sdkCalls[|old(sdkCalls)|], args)
    {
      var obj := ArgObject(args, 1);
      if obj.None? {
        return [Error("JSONMappingException")];
      }
      var dimensions := StringMap.GetStringMapFromJsonObject(obj.value);
      if dimensions.Err? {
        return [Error("JSONMappingException")];
      }
      var name := ArgString(args, 0);
      if name.None? {
        return [Error("JSONMappingException")];
      }
      sdkCalls := sdkCalls + [TrackAnalyticsEvent(name.value, dimensions.value)];
      replies := [Success(None)];
    }

    /**
     * `execute`: routes the action to its command. Subscribe and unsubscribe
     * read their channel before dispatching, so a missing channel makes the
     * JSONException escape `execute`.
     */
    method Execute(action: string, args: seq<JsonValue>, sdk: SdkAnswers) returns (result: ExecResult, replies: seq<Reply>)
      modifies this`eventCallback, this`launchNotification, this`sent, this`sdkCalls
      ensures result.Returned? ==> result.handled == Route(action).1
      ensures result.ThrewJsonException? <==>
        (Route(action).0 == SubscribeOp || Route(action).0 == UnsubscribeOp) && ArgString(args, 0).None?
      ensures |replies| <= 1
      ensures replies == [] <==>
        Route(action).0 == NoOp || result.ThrewJsonException? || (Route(action).0 == InitializeOp && old(initialized))
      ensures initialized == old(initialized)
      ensures Route(action).0 != RegisterCallbackOp ==> State() == old(State()) && sent == old(sent)
      ensures Route(action).0 == NoOp ==> sdkCalls == old(sdkCalls)
      ensures Route(action).0 == RegisterCallbackOp && ArgString(args, 0).Some? ==>
        State() == Step(old(State()), Register(ArgString(args, 0).value)).0
        && sent == old(sent) + Step(old(State()), Register(ArgString(args, 0).value)).1
      ensures Route(action).0 == InitializeOp && old(initialized) ==> sdkCalls == old(sdkCalls)
      ensures Route(action).0 == TrackEventOp && !TrackEventReadable(args) ==>
        replies == [Error("JSONMappingException")] && sdkCalls == old(sdkCalls)
      ensures Route(action).0 == TrackEventOp && TrackEventReadable(args) ==>
        replies == [Success(None)]
        && |sdkCalls| == |old(sdkCalls)| + 1 && sdkCalls[..|old(sdkCalls)|] == old(sdkCalls)
        && IsTrackedEvent(sdkCalls[|old(sdkCalls)|], args)
      ensures Route(action).0 == RegisterCallbackOp ==>
        sdkCalls == old(sdkCalls)
        && replies == (if ArgString(args, 0).Some? then [Success(None)] else [Error("JSONException")])
      ensures Route(action).0 == RegisterCallbackOp && ArgString(args, 0).None? ==>
        State() == old(State()) && sent == old(sent)
      ensures Route(action).0 == InitializeOp && !old(initialized) && (ArgString(args, 0).None? || ArgString(args, 1).None?) ==>
        replies == [Error("JSONException")] && sdkCalls == old(sdkCalls)
      ensures Route(action).0 == InitializeOp && !old(initialized) && ArgString(args, 0).Some? && ArgString(args, 1).Some? ==>
        replies == [Success(None)]
        && sdkCalls == old(sdkCalls) + [ParseInitialize(ArgString(args, 0).value, ArgString(args, 1).value), SaveInstallation]
      ensures Route(action).0 == GetInstallationIdOp ==>
        replies == [Success(Some(sdk.installationId))] && sdkCalls == old(sdkCalls) + [ReadInstallationId]
      ensures Route(action).0 == GetInstallationObjectIdOp ==>
        replies == [Success(Some(sdk.objectId))] && sdkCalls == old(sdkCalls) + [ReadInstallationObjectId]
      ensures Route(action).0 == GetSubscriptionsOp ==>
        replies == [Success(Some(sdk.subscriptions))] && sdkCalls == old(sdkCalls) + [ReadSubscriptions]
      ensures Route(action).0 == SubscribeOp && ArgString(args, 0).None? ==> sdkCalls == old(sdkCalls)
      ensures Route(action).0 == SubscribeOp && ArgString(args, 0).Some? && sdk.subscribeFailure.None? ==>
        replies == [Success(None)]
        && sdkCalls == old(sdkCalls) + [SubscribeChannel(ArgString(args, 0).value), ReadSubscriptions, SaveInstallation]
      ensures Route(action).0 == SubscribeOp && ArgString(args, 0).Some? && sdk.subscribeFailure.Some? ==>
        replies == [Error(sdk.subscribeFailure.value)]
        && sdkCalls == old(sdkCalls) + [SubscribeChannel(ArgString(args, 0).value)]
      ensures Route(action).0 == UnsubscribeOp && ArgString(args, 0).None? ==> sdkCalls == old(sdkCalls)
      ensures Route(action).0 == UnsubscribeOp && ArgString(args, 0).Some? ==>
        sdkCalls == old(sdkCalls) + [UnsubscribeChannel(ArgString(args, 0).value)]
        && replies == (if sdk.unsubscribeFailure.None? then [Success(None)] else [Error(sdk.unsubscribeFailure.value)])
    {
      var route := Route(action);
      result := Returned(route.1);
      match route.0
      case RegisterCallbackOp =>
        replies := RegisterCallback(args);
      case InitializeOp =>
        replies := InitializeCommand(args);
      case GetInstallationIdOp =>
        replies := GetInstallationId(sdk.installationId);
      case GetInstallationObjectIdOp =>
        replies := GetInstallationObjectId(sdk.objectId);
      case GetSubscriptionsOp =>
        replies := GetSubscriptions(sdk.subscriptions);
      case SubscribeOp =>
        var channel := ArgString(args, 0);
        if channel.None? {
          return ThrewJsonException, [];
        }
        replies := Subscribe(channel.value, sdk.subscribeFailure);
      case UnsubscribeOp =>
        var channel := ArgString(args, 0);
        if channel.None? {
          return ThrewJsonException, [];
        }
        replies := Unsubscribe(channel.value, sdk.unsubscribeFailure);
      case TrackEventOp =>
        replies := TrackEventCommand(args);
      case NoOp =>
        replies := [];
    }
  }

  /**
   * Two launch notifications with no flush between them: the second replaces
   * the first, and nothing is sent.
   */
  method LastWriteWins(plugin: ParsePlugin, p: Option<string>, q: Option<string>)
    modifies plugin`launchNotification
    ensures plugin.launchNotification == q
    ensures plugin.eventCallback == old(plugin.eventCallback) && plugin.webView == old(plugin.webView)
    ensures plugin.foreground == old(plugin.foreground) && plugin.sent == old(plugin.sent)
    ensures plugin.initialized == old(plugin.initialized) && plugin.sdkCalls == old(plugin.sdkCalls)
  {
    plugin.SetLaunchNotification(p);
    plugin.SetLaunchNotification(q);
  }
}
