# ParsePlugin (Cordova bridge to the Parse SDK), modelled in Dafny

`src/android/ParsePlugin.java` is a Cordova plugin: the web page calls
`execute(action, args, callbackContext)`, the plugin calls the Parse SDK and
reports success or error through the callback context. Besides that glue it
has three pieces of logic of its own, and those are what this project models:

1. **The launch-notification gate.** Four static fields (`sEventCallback`,
   `sWebView`, `sForeground`, `sLaunchNotification`) are updated by the
   Cordova lifecycle hooks, by `setLaunchNotification` (called when the app is
   opened from a push notification), by the `registerCallback` command and by
   the flush `handleLaunchNotification`, which hands the pending payload to
   `javascriptEventCallback`. That sends a `javascript:cb(payload)` snippet to
   the webview.
2. **Command routing in `execute`**: which action name triggers which command
   and which boolean `execute` returns.
3. **`getStringMapFromJSONObject`**, which turns the `trackEvent` dimensions
   object into a string map and throws on a value that is not a string.

Files and modules:

- `wrappers.dfy` (`Wrappers`): `Option` (Java `null`) and `Result` (a thrown
  exception, by class name).
- `json.dfy` (`Json`): JSON values as org.json hands them over, and the
  argument readers `ArgString` (`JSONArray.getString`) and `ArgObject`
  (`JSONArray.getJSONObject`).
- `string_map.dfy` (`StringMap`): the map-building loop as a method with loop
  invariants.
- `routing.dfy` (`Routing`): `Route`, a pure function from action name to
  operation and return value.
- `gate.dfy` (`Gate`): the four gate fields as a `Session` value, each
  transition as `Step`, sequences of transitions as `Run`, and lemmas about
  whole runs.
- `plugin.dfy` (`Plugin`): class `ParsePlugin`, one object standing for the
  static fields, with a method per transition and per command. Each method
  that changes a gate field is proved against `Gate.Step` or `Gate.Flush`, so
  the lemmas of `Gate` apply to it. `Gate.RunOne` is a helper that the
  scenario lemmas use.

Modelling choices:

- The Cordova thread pool and the SDK's completion callbacks are run inline:
  each `Runnable` or `done` callback is one sequential step of its method.
- What the SDK answers (installation id, object id, the text of the
  subscription set, the failure message of subscribe and unsubscribe) is a
  parameter (`SdkAnswers`). The SDK calls issued are recorded in `sdkCalls`.
  The snippets sent to the webview are recorded in the ghost field `sent`.
- A notification payload is represented by its `toString()` text, and a
  `null` payload by `None`.
- JSON values are strings, objects (members in iteration order, plus their
  text), or any other value kept as its text. As in Android's org.json,
  `getString(i)` fails only for an index out of range and turns any present
  value into its text. `getJSONObject(i)` also fails when the value there is
  not an object.

Behaviour worth knowing, all of it proved about the code:

- `onResume` only sets the foreground flag; only `registerCallback` flushes
  the pending notification (`Gate.ResumeDoesNotFlush`,
  `Gate.NoRegisterNoDelivery`).
- The flush clears the pending notification whenever the app is in the
  foreground and something is pending, even when nothing can be sent (an
  empty callback name). The notification is then lost
  (`Gate.EmptyCallbackDropsNotification`).
- The `initialize` command never sets `sInitialized`; only
  `initializeParseWithApplication` does. So while the latch is unset, every
  `initialize` command initialises the SDK again
  (`Plugin.ParsePlugin.InitializeCommand`).
- `execute` returns false for `trackEvent`, whose branch has no
  `return true`, although it runs the command (`Routing.Route`).
- `onDestroy` keeps the pending notification, so it survives into the next
  attach (`Gate.PendingSurvivesDestroy`).

## Model

| member | source | states |
|---|---|---|
| `Routing.Route` | src/android/ParsePlugin.java:62-100 | `execute` returns true exactly for the seven actions `registerCallback`, `initialize`, `getInstallationId`, `getInstallationObjectId`, `getSubscriptions`, `subscribe`, `unsubscribe`. It returns false for `trackEvent` (which still runs its command) and for every unknown name (which runs nothing). The operation chosen is the one named by the action. |
| `Routing.RouteActionName` | src/android/ParsePlugin.java:30-37 | Each operation is reached by exactly its own action constant: routing inverts the action names. |
| `StringMap.GetStringMapFromJsonObject` | src/android/ParsePlugin.java:205-213 | Succeeds if and only if every value is a string; a failure is a ClassCastException and never a partial map. On success the map's keys are exactly the object's keys, and each key is bound to the value of its last member (for an object with distinct keys, to its value). |
| `Plugin.ParsePlugin.constructor` | src/android/ParsePlugin.java:39-43 | The static initialisers: no callback, no webview, background, nothing pending, latch unset. |
| `Plugin.ParsePlugin.InitializeParseWithApplication` | src/android/ParsePlugin.java:45-54 | Enables the local datastore, initialises the SDK with the two resource strings, saves the installation, and sets the latch; the gate fields do not change. |
| `Plugin.ParsePlugin.JavascriptEventCallback` | src/android/ParsePlugin.java:218-224 | Sends exactly one snippet `"javascript:" + cb + "(" + payload + ")"` when the callback is set and non-empty and the webview is present, and nothing otherwise. It never changes the session. |
| `Plugin.ParsePlugin.SetLaunchNotification` | src/android/ParsePlugin.java:258-260 | The pending notification becomes the new payload, whatever was pending before; a `null` payload empties the slot. Nothing else changes and nothing is sent. |
| `Plugin.ParsePlugin.HandleLaunchNotification` | src/android/ParsePlugin.java:262-267 | In the background, or with nothing pending, nothing changes and nothing is sent. Otherwise `javascriptEventCallback` runs once on the pending payload and the pending notification is cleared, also when nothing could be sent. |
| `Plugin.ParsePlugin.Initialize` | src/android/ParsePlugin.java:226-232 | Attach: the callback is cleared, the webview is present, the app is in the foreground. The pending notification is kept. |
| `Plugin.ParsePlugin.OnDestroy` | src/android/ParsePlugin.java:234-240 | The callback is cleared, the webview is absent, the app is in the background. The pending notification is kept. |
| `Plugin.ParsePlugin.OnPause` | src/android/ParsePlugin.java:242-246 | Only the foreground flag changes, to false. |
| `Plugin.ParsePlugin.OnResume` | src/android/ParsePlugin.java:248-252 | Only the foreground flag changes, to true. Nothing is flushed or sent. |
| `Plugin.ParsePlugin.RegisterCallback` | src/android/ParsePlugin.java:103-116 | Exactly one reply. If `args[0]` cannot be read, the reply is "JSONException" and nothing changes. Otherwise `args[0]` becomes the callback, the reply is success, and the flush runs. |
| `Plugin.ParsePlugin.InitializeCommand` | src/android/ParsePlugin.java:118-135 | With the latch set: no reply and no SDK call. Otherwise, if either argument cannot be read: "JSONException" and no SDK call. Otherwise: SDK initialised with the two arguments, installation saved, success. The latch never changes. |
| `Plugin.ParsePlugin.GetInstallationId` | src/android/ParsePlugin.java:137-144 | Reads the installation id from the SDK and replies success with it. |
| `Plugin.ParsePlugin.GetInstallationObjectId` | src/android/ParsePlugin.java:146-153 | Reads the installation's object id from the SDK and replies success with it. |
| `Plugin.ParsePlugin.GetSubscriptions` | src/android/ParsePlugin.java:155-162 | Reads the subscriptions from the SDK and replies success with their text. |
| `Plugin.ParsePlugin.Subscribe` | src/android/ParsePlugin.java:164-179 | Issues the subscribe. With no failure: reads the subscriptions, saves the installation, replies success. With a failure: replies an error carrying the failure message, and nothing more. |
| `Plugin.ParsePlugin.Unsubscribe` | src/android/ParsePlugin.java:181-193 | Issues the unsubscribe. Replies success, or an error carrying the failure message. |
| `Plugin.ParsePlugin.TrackEventCommand` | src/android/ParsePlugin.java:91-98 | If the dimensions object at index 1 is missing, is not an object or holds a non-string value, or the name at index 0 is missing: the only reply is "JSONMappingException" and no event reaches the SDK. Otherwise exactly one analytics event goes to the SDK (lines 196-203). It carries the name and the dimensions map: the object's keys, each bound to its string value. The reply is success. |
| `Plugin.ParsePlugin.Execute` | src/android/ParsePlugin.java:62-101 | Returns `Route`'s boolean. A JSONException escapes exactly for `subscribe` and `unsubscribe` without `args[0]`, before any SDK call. There is at most one reply, and none exactly for an unknown action, an escaped exception, or `initialize` with the latch set. The latch never changes. Only `registerCallback` touches the gate, as `Gate.Step` says. An unknown action changes nothing. For every routed operation it states the exact reply and the exact SDK calls that operation's command produces. |
| `Plugin.LastWriteWins` | src/android/ParsePlugin.java:258-260 | Two `setLaunchNotification` calls in a row leave the second payload (or `null`) pending and change nothing else: not the other gate fields, the snippets sent, the latch or the SDK calls. |
| `Gate.NoRegisterNoDelivery` | src/android/ParsePlugin.java:226-267 | Without a `registerCallback`, no sequence of lifecycle hooks and notifications sends anything. Such a sequence drops a pending notification only through `setLaunchNotification(null)`; any other notification only replaces it. |
| `Gate.DeliveredAtMostOnce` | src/android/ParsePlugin.java:258-267 | Over any run, the snippets sent plus the notification still pending never outnumber the non-null notifications received plus the one pending at the start. So no payload is delivered twice. |
| `Gate.DeliveriesComeFromNotifications` | src/android/ParsePlugin.java:218-267 | Every snippet sent over any run calls a non-empty callback with a payload that was pending at the start or given to `setLaunchNotification`. |
| `Gate.PendingComesFromNotifications` | src/android/ParsePlugin.java:258-267 | Whatever is pending at the end of a run was pending at its start or was given to `setLaunchNotification` during it. |
| `Gate.NotifyLastWriteWins` | src/android/ParsePlugin.java:258-260 | Two notifications in a row (either may be `null`) act like the second one alone. |
| `Gate.NullNotificationClears` | src/android/ParsePlugin.java:258-267 | `setLaunchNotification(null)` empties the slot, so the flush of a following `registerCallback` sends nothing (the `!= null` guard). |
| `Gate.LaunchFromNotification` | src/android/ParsePlugin.java:103-116 | Attach, resume, notification, then `registerCallback("cb")`: exactly one snippet, `cb` called with the payload. Nothing stays pending. |
| `Gate.ResumeDoesNotFlush` | src/android/ParsePlugin.java:248-252 | A notification that arrives in the background is still pending after `onResume`, with a callback registered, and nothing is sent. |
| `Gate.EmptyCallbackDropsNotification` | src/android/ParsePlugin.java:262-267 | Registering an empty callback name flushes the pending notification without sending it. |
| `Gate.PendingSurvivesDestroy` | src/android/ParsePlugin.java:234-240 | A notification pending at `onDestroy` is still pending after the next attach. |

## Left out

- The Parse SDK itself (`Parse.initialize`, `ParseInstallation`, `PushService.getSubscriptions`, `ParsePush`, `ParseAnalytics`): foreign library code. Each call is recorded as an `SdkCall`, and its answers are parameters.
- Concurrency: the Cordova thread pool and the SDK's own callback threads. Each task runs inline to completion, so races on the static fields are not modelled.
- The relative order of a command's reply and the snippets its flush sends: replies and snippets are kept in separate logs.
- `getStringByKey` (an Android resource lookup): the two resource strings are parameters of `InitializeParseWithApplication`.
- Logging (`Log.*`, `printStackTrace`): output only.
- JSON serialisation of payloads and of the subscription set: opaque strings.
- The `super` calls of the lifecycle hooks and the unused `multitasking` argument of `onPause`/`onResume`: Cordova's own code.
- `IsInForeground` is modelled as a plain reader of the foreground flag and has no contract of its own.
- What Cordova does with a JSONException that escapes `execute`: `Execute` reports it as `ThrewJsonException` and sends no reply.
