/**
 * The launch-notification gate as a value: the four static session fields of
 * ParsePlugin, what each transition makes of them, and what it sends to the
 * webview. Class `Plugin.ParsePlugin` is proved against these functions; the
 * lemmas below are about whole sequences of transitions.
 */
module Gate {
  import opened Wrappers

  /**
   * `sEventCallback`, whether `sWebView` is set, `sForeground`, and
   * `sLaunchNotification` (kept as the payload's `toString()` text, `None` for `null`).
   */
  datatype Session = Session(callback: Option<string>, webView: bool, foreground: bool, pending: Option<string>)

  /** The static initialisers: no callback, no webview, background, nothing pending. */
  const Initial: Session := Session(None, false, false, None)

  /** The JavaScript URL that invokes `callback` with `payload`. */
  function Snippet(callback: string, payload: string): string
  {
    "javascript:" + callback + "(" + payload + ")"
  }

  /** `javascriptEventCallback` sends only with a non-empty callback and a webview. */
  predicate CanSend(s: Session)
  {
    s.callback.Some? && s.callback.value != "" && s.webView
  }

  /** The snippets `javascriptEventCallback(payload)` sends from session `s`. */
  function CallbackOutput(s: Session, payload: string): seq<string>
  {
    if CanSend(s) then [Snippet(s.callback.value, payload)] else []
  }

  /**
   * `handleLaunchNotification`: in the foreground with a notification pending,
   * hand it to `javascriptEventCallback` and clear it, whether or not that sent anything.
   */
  function Flush(s: Session): (Session, seq<string>)
  {
    if s.foreground && s.pending.Some? then (s.(pending := None), CallbackOutput(s, s.pending.value))
    else (s, [])
  }

  /**
   * The transitions of the gate: the four Cordova lifecycle hooks,
   * `setLaunchNotification` (whose payload may be `null`), and a
   * `registerCallback` whose argument could be read.
   */
  datatype Event =
    | Attach
    | Destroy
    | Pause
    | Resume
    | Notify(payload: Option<string>)
    | Register(callbackName: string)

  /** One transition: the new session and the snippets sent to the webview. */
  function Step(s: Session, e: Event): (Session, seq<string>)
  {
    match e
    case Attach => (s.(callback := None, webView := true, foreground := true), [])
    case Destroy => (s.(callback := None, webView := false, foreground := false), [])
    case Pause => (s.(foreground := false), [])
    case Resume => (s.(foreground := true), [])
    case Notify(p) => (s.(pending := p), [])
    case Register(cb) => Flush(s.(callback := Some(cb)))
  }

  /** A sequence of transitions: the final session and every snippet sent, in order. */
  function Run(s: Session, es: seq<Event>): (Session, seq<string>)
    decreases |es|
  {
    if es == [] then (s, [])
    else
      var first := Step(s, es[0]);
      var rest := Run(first.0, es[1..]);
      (rest.0, first.1 + rest.1)
  }

  /** A run of one transition is that transition. */
  lemma RunOne(s: Session, e: Event)
    ensures Run(s, [e]) == Step(s, e)
  {
    assert [e][1..] == [];
    assert Step(s, e).1 + [] == Step(s, e).1;
  }

  /** How many `setLaunchNotification` calls with a payload (not `null`) a sequence of transitions holds. */
  function NotifyCount(es: seq<Event>): nat
    decreases |es|
  {
    if es == [] then 0 else (if es[0].Notify? && es[0].payload.Some? then 1 else 0) + NotifyCount(es[1..])
  }

  /** 1 when a notification is held, 0 when not. */
  function Held(pending: Option<string>): nat
  {
    if pending.Some? then 1 else 0
  }

  /**
   * Only `registerCallback` flushes: lifecycle hooks and notifications alone
   * never send anything, and a pending notification is dropped only by a
   * `setLaunchNotification(null)`; any other notification only replaces it.
   */
  lemma {:induction false} NoRegisterNoDelivery(s: Session, es: seq<Event>)
    requires forall i :: 0 <= i < |es| ==> !es[i].Register?
    ensures Run(s, es).1 == []
    ensures Run(s, es).0.pending.None? ==> s.pending.None? || Notify(None) in es
    decreases |es|
  {
    if es != [] {
      NoRegisterNoDelivery(Step(s, es[0]).0, es[1..]);
      assert es == [es[0]] + es[1..];
    }
  }

  /**
   * Every payload is delivered at most once: the snippets sent plus the one
   * still pending never outnumber the notifications that came in plus the one
   * pending at the start.
   */
  lemma {:induction false} DeliveredAtMostOnce(s: Session, es: seq<Event>)
    ensures |Run(s, es).1| + Held(Run(s, es).0.pending) <= NotifyCount(es) + Held(s.pending)
    decreases |es|
  {
    if es != [] {
      DeliveredAtMostOnce(Step(s, es[0]).0, es[1..]);
    }
  }

  /** A snippet that calls a non-empty callback with a payload that came in. */
  ghost predicate FromNotification(snippet: string, s: Session, es: seq<Event>)
  {
    exists cb: string, p: string {:trigger Snippet(cb, p)} ::
      snippet == Snippet(cb, p) && cb != "" && (s.pending == Some(p) || Notify(Some(p)) in es)
  }

  /** What the first transition of a run sends comes from a notification of the run. */
  lemma FirstStepFromNotification(s: Session, es: seq<Event>)
    requires es != []
    ensures forall k :: 0 <= k < |Step(s, es[0]).1| ==> FromNotification(Step(s, es[0]).1[k], s, es)
  {
    var out := Step(s, es[0]).1;
    if out != [] {
      assert es[0].Register? && s.pending.Some?;
      assert out == [Snippet(es[0].callbackName, s.pending.value)];
      assert FromNotification(out[0], s, es);
    }
  }

  /** What comes from a notification after the first transition comes from one of the whole run. */
  lemma AfterFirstStepFromNotification(snippet: string, s: Session, es: seq<Event>)
    requires es != []
    requires FromNotification(snippet, Step(s, es[0]).0, es[1..])
    ensures FromNotification(snippet, s, es)
  {
    var cb, p :| snippet == Snippet(cb, p) && cb != ""
      && (Step(s, es[0]).0.pending == Some(p) || Notify(Some(p)) in es[1..]);
    assert es == [es[0]] + es[1..];
    assert s.pending == Some(p) || Notify(Some(p)) in es;
  }

  /**
   * Whatever is pending at the end of a run was pending at its start or was
   * passed to `setLaunchNotification` during it.
   */
  lemma {:induction false} PendingComesFromNotifications(s: Session, es: seq<Event>)
    ensures Run(s, es).0.pending.Some? ==>
      Run(s, es).0.pending == s.pending || Notify(Run(s, es).0.pending) in es
    decreases |es|
  {
    if es != [] {
      PendingComesFromNotifications(Step(s, es[0]).0, es[1..]);
      assert es == [es[0]] + es[1..];
    }
  }

  /**
   * Nothing is invented: every snippet sent calls a non-empty callback with a
   * payload that was pending at the start or was passed to
   * `setLaunchNotification`.
   */
  lemma {:induction false} DeliveriesComeFromNotifications(s: Session, es: seq<Event>)
    ensures forall k :: 0 <= k < |Run(s, es).1| ==> FromNotification(Run(s, es).1[k], s, es)
    decreases |es|
  {
    if es != [] {
      var first := Step(s, es[0]);
      var rest := Run(first.0, es[1..]);
      DeliveriesComeFromNotifications(first.0, es[1..]);
      FirstStepFromNotification(s, es);
      forall k | 0 <= k < |rest.1| ensures FromNotification(rest.1[k], s, es) {
        AfterFirstStepFromNotification(rest.1[k], s, es);
      }
      assert Run(s, es).1 == first.1 + rest.1;
    }
  }

  /** Last write wins: of two notifications with no flush between them, only the second is kept. */
  lemma NotifyLastWriteWins(s: Session, p: Option<string>, q: Option<string>)
    ensures Run(s, [Notify(p), Notify(q)]) == Run(s, [Notify(q)])
  {
  }

  /**
   * The app opened from a notification: attach, notification, then the page
   * registers its callback; exactly one snippet is sent and nothing stays pending.
   */
  lemma LaunchFromNotification(p: string)
    ensures Run(Initial, [Attach, Resume, Notify(Some(p)), Register("cb")])
         == (Session(Some("cb"), true, true, None), [Snippet("cb", p)])
  {
    var s1 := Session(None, true, true, None);
    var s2 := s1.(pending := Some(p));
    assert CanSend(s2.(callback := Some("cb")));
    assert Step(s2, Register("cb")) == (s2.(callback := Some("cb"), pending := None), [Snippet("cb", p)]);
    RunOne(s2, Register("cb"));
    assert Run(s2, [Register("cb")]) == (s2.(callback := Some("cb"), pending := None), [Snippet("cb", p)]);
    assert [Notify(Some(p)), Register("cb")][1..] == [Register("cb")];
    assert [] + Run(s2, [Register("cb")]).1 == Run(s2, [Register("cb")]).1;
    assert Run(s1, [Notify(Some(p)), Register("cb")]) == Run(s2, [Register("cb")]);
    assert Run(s1, [Resume, Notify(Some(p)), Register("cb")]) == Run(s1, [Notify(Some(p)), Register("cb")]);
  }

  /**
   * `onResume` does not flush: a notification that arrives in the background
   * stays pending across the resume although a callback is registered.
   */
  lemma ResumeDoesNotFlush(cb: string, p: string)
    requires cb != ""
    ensures Run(Initial, [Attach, Register(cb), Pause, Notify(Some(p)), Resume])
         == (Session(Some(cb), true, true, Some(p)), [])
  {
    var s1 := Session(Some(cb), true, true, None);
    var s2 := s1.(foreground := false, pending := Some(p));
    assert Run(s2, [Resume]) == (s2.(foreground := true), []);
    assert Run(s1.(foreground := false), [Notify(Some(p)), Resume]) == Run(s2, [Resume]);
    assert Run(s1, [Pause, Notify(Some(p)), Resume]) == Run(s1.(foreground := false), [Notify(Some(p)), Resume]);
    assert Run(Session(None, true, true, None), [Register(cb), Pause, Notify(Some(p)), Resume])
        == Run(s1, [Pause, Notify(Some(p)), Resume]);
  }

  /** A flush with an empty callback name clears the notification without sending it. */
  lemma EmptyCallbackDropsNotification(p: string)
    ensures Run(Initial, [Attach, Notify(Some(p)), Register("")])
         == (Session(Some(""), true, true, None), [])
  {
    var s1 := Session(None, true, true, Some(p));
    assert Step(s1, Register("")) == (Session(Some(""), true, true, None), []);
    RunOne(s1, Register(""));
    assert Run(s1, [Register("")]) == (Session(Some(""), true, true, None), []);
    assert Run(Session(None, true, true, None), [Notify(Some(p)), Register("")]) == Run(s1, [Register("")]);
  }

  /** `onDestroy` keeps the pending notification, so it survives into the next attach. */
  lemma PendingSurvivesDestroy(s: Session, p: string)
    ensures Run(s, [Notify(Some(p)), Destroy, Attach]).0.pending == Some(p)
  {
    var s2 := s.(pending := Some(p), callback := None, webView := false, foreground := false);
    assert Run(s2, [Attach]).0.pending == Some(p);
    assert Run(s.(pending := Some(p)), [Destroy, Attach]) == Run(s2, [Attach]);
  }

  /** `setLaunchNotification(null)` empties the slot, so the flush that follows sends nothing. */
  lemma NullNotificationClears(s: Session, cb: string)
    ensures Run(s, [Notify(None), Register(cb)]) == (s.(callback := Some(cb), pending := None), [])
  {
    var s1 := s.(pending := None);
    RunOne(s1, Register(cb));
    assert [Notify(None), Register(cb)][1..] == [Register(cb)];
  }
}
