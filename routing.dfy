/**
 * The action routing of `ParsePlugin.execute`: which operation an action name
 * triggers and which boolean `execute` then returns.
 */
module Routing {

  const ActionInitialize: string := "initialize"
  const ActionGetInstallationId: string := "getInstallationId"
  const ActionGetInstallationObjectId: string := "getInstallationObjectId"
  const ActionGetSubscriptions: string := "getSubscriptions"
  const ActionSubscribe: string := "subscribe"
  const ActionUnsubscribe: string := "unsubscribe"
  const ActionRegisterCallback: string := "registerCallback"
  const ActionTrackEvent: string := "trackEvent"

  /** The operation an action triggers; `NoOp` for an action name `execute` does not know. */
  datatype Op =
    | RegisterCallbackOp
    | InitializeOp
    | GetInstallationIdOp
    | GetInstallationObjectIdOp
    | GetSubscriptionsOp
    | SubscribeOp
    | UnsubscribeOp
    | TrackEventOp
    | NoOp

  /** The actions for which `execute` returns true. */
  const Handled: set<string> := {
    ActionRegisterCallback, ActionInitialize, ActionGetInstallationId,
    ActionGetInstallationObjectId, ActionGetSubscriptions, ActionSubscribe, ActionUnsubscribe
  }

  /** Every action that triggers an operation: the handled ones and `trackEvent`. */
  const Known: set<string> := Handled + {ActionTrackEvent}

  /** The action name that selects `op`. */
  function ActionName(op: Op): string
    requires op != NoOp
  {
    match op
    case RegisterCallbackOp => ActionRegisterCallback
    case InitializeOp => ActionInitialize
    case GetInstallationIdOp => ActionGetInstallationId
    case GetInstallationObjectIdOp => ActionGetInstallationObjectId
    case GetSubscriptionsOp => ActionGetSubscriptions
    case SubscribeOp => ActionSubscribe
    case UnsubscribeOp => ActionUnsubscribe
    case TrackEventOp => ActionTrackEvent
  }

  /**
   * The `if (action.equals(...))` chain of `execute`. The `trackEvent`
   * branch has no `return true` and falls through to `return false`.
   */
  function Route(action: string): (r: (Op, bool))
    ensures r.1 <==> action in Handled
    ensures r.0 == NoOp <==> action !in Known
    ensures r.0 != NoOp ==> ActionName(r.0) == action
    ensures r.1 <==> r.0 != NoOp && r.0 != TrackEventOp
  {
    if action == ActionRegisterCallback then (RegisterCallbackOp, true)
    else if action == ActionInitialize then (InitializeOp, true)
    else if action == ActionGetInstallationId then (GetInstallationIdOp, true)
    else if action == ActionGetInstallationObjectId then (GetInstallationObjectIdOp, true)
    else if action == ActionGetSubscriptions then (GetSubscriptionsOp, true)
    else if action == ActionSubscribe then (SubscribeOp, true)
    else if action == ActionUnsubscribe then (UnsubscribeOp, true)
    else if action == ActionTrackEvent then (TrackEventOp, false)
    else (NoOp, false)
  }

  /** Routing is the inverse of naming: each operation is reached by exactly its own action name. */
  lemma RouteActionName(op: Op)
    requires op != NoOp
    ensures Route(ActionName(op)).0 == op
  {
  }
}
