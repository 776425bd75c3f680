/** The connectivity detector of js/online-detector.js: the `isOnline` and `wasOffline`
    flags, the handle of the 30-second backup poll, and the handlers that the browser's
    `online`/`offline` events and the poll call. What the handlers do to the page (the
    toast, the body class, the status icons) and the notifications they ask for are
    recorded as a log of effects. `navigator.onLine` at a tick is the parameter `polled`,
    and whether the global NotificationSystem exists is the parameter `notifier`. */
module OnlineDetector {
  import opened JsBase

  const BackOnlineMessage: string := "You're back online!"
  const OfflineMessage: string := "You're offline. Some features may be limited."
  const BackupPeriodMs: int := 30000

  datatype Effect =
    | Toast(message: string, kind: string)
    | BackOnlineNotification
    | OfflineNotification
    | UiUpdated(online: bool)
    | IntervalCleared(handle: int)

  datatype DetectorState = DetectorState(isOnline: bool, wasOffline: bool, checkInterval: Option<int>)

  /** The object as the script creates it, `isOnline` read from `navigator.onLine`. */
  function Initial(onLine: bool): DetectorState
  {
    DetectorState(onLine, false, None)
  }

  /** How many times `e` occurs in the log. */
  function Occurrences(es: seq<Effect>, e: Effect): nat
  {
    if |es| == 0 then 0 else Occurrences(es[..|es| - 1], e) + (if es[|es| - 1] == e then 1 else 0)
  }

  // ---------------------------------------------------------------------------
  // Operations

  /** handleOnline(): online; only after an offline period the back-online notification
      and toast, and the period is over; then the page is updated. */
  function Online(s: DetectorState, notifier: bool): (DetectorState, seq<Effect>)
  {
    if s.wasOffline then
      (s.(isOnline := true, wasOffline := false),
       (if notifier then [BackOnlineNotification] else []) + [Toast(BackOnlineMessage, "success"), UiUpdated(true)])
    else (s.(isOnline := true), [UiUpdated(true)])
  }

  /** handleOffline(): offline and an offline period begun; the warning toast, the
      offline notification, then the page. */
  function Offline(s: DetectorState, notifier: bool): (DetectorState, seq<Effect>)
  {
    (s.(isOnline := false, wasOffline := true),
     [Toast(OfflineMessage, "warning")] + (if notifier then [OfflineNotification] else []) + [UiUpdated(false)])
  }

  /** The body of the backup poll: a handler runs only when the polled status differs
      from the recorded one. */
  function Tick(s: DetectorState, polled: bool, notifier: bool): (DetectorState, seq<Effect>)
  {
    if polled == s.isOnline then (s, [])
    else if polled then Online(s, notifier)
    else Offline(s, notifier)
  }

  /** startBackupCheck() with `handle` the id setInterval returned. */
  function BackupStarted(s: DetectorState, handle: int): DetectorState
  {
    s.(checkInterval := Some(handle))
  }

  /** stopBackupCheck(): clears a set handle (a handle of 0 is falsy and stays). */
  function BackupStopped(s: DetectorState): (DetectorState, seq<Effect>)
  {
    if s.checkInterval.Some? && s.checkInterval.value != 0 then
      (s.(checkInterval := None), [IntervalCleared(s.checkInterval.value)])
    else (s, [])
  }

  /** What the Network Information API offers, each property possibly missing. */
  datatype ConnectionApi = ConnectionApi(
    effectiveType: Option<string>,
    downlink: Option<real>,
    rtt: Option<real>,
    saveData: Option<bool>)

  datatype ConnectionInfo = ConnectionInfo(online: bool, kind: string, downlink: real, rtt: real, saveData: bool)

  /** getConnectionInfo(), `api` None when no connection object exists. Missing or falsy
      properties fall back to 'unknown', 0, 0 and false. */
  function Info(s: DetectorState, api: Option<ConnectionApi>): ConnectionInfo
  {
    if api.None? then ConnectionInfo(s.isOnline, "unknown", 0.0, 0.0, false)
    else
      var c := api.value;
      ConnectionInfo(
        s.isOnline,
        if c.effectiveType.Some? && c.effectiveType.value != "" then c.effectiveType.value else "unknown",
        if c.downlink.Some? then c.downlink.value else 0.0,
        if c.rtt.Some? then c.rtt.value else 0.0,
        c.saveData.Some? && c.saveData.value)
  }

  // ---------------------------------------------------------------------------
  // Properties

  lemma {:induction false} OccurrencesAppend(a: seq<Effect>, b: seq<Effect>, e: Effect)
    ensures Occurrences(a + b, e) == Occurrences(a, e) + Occurrences(b, e)
    decreases |b|
  {
    if |b| == 0 {
      assert a + b == a;
    } else {
      assert (a + b)[..|a + b| - 1] == a + b[..|b| - 1];
      OccurrencesAppend(a, b[..|b| - 1], e);
    }
  }

  lemma OccurrencesOne(x: Effect, e: Effect)
    ensures Occurrences([x], e) == if x == e then 1 else 0
  {
    assert [x][..0] == [];
  }

  /** handleOffline always ends offline with an offline period begun, and emits one
      warning toast and, when the notification system exists, one offline notification,
      and no back-online notification. */
  lemma OfflineRule(s: DetectorState, notifier: bool)
    ensures var (t, es) := Offline(s, notifier);
      && !t.isOnline && t.wasOffline && t.checkInterval == s.checkInterval
      && Occurrences(es, Toast(OfflineMessage, "warning")) == 1
      && Occurrences(es, OfflineNotification) == (if notifier then 1 else 0)
      && Occurrences(es, BackOnlineNotification) == 0
  {
    var n: seq<Effect> := if notifier then [OfflineNotification] else [];
    var es := [Toast(OfflineMessage, "warning")] + n + [UiUpdated(false)];
    forall e | e in {Toast(OfflineMessage, "warning"), OfflineNotification, BackOnlineNotification}
      ensures Occurrences(es, e) == Occurrences([Toast(OfflineMessage, "warning")], e) + Occurrences(n, e) + Occurrences([UiUpdated(false)], e)
    {
      OccurrencesAppend([Toast(OfflineMessage, "warning")] + n, [UiUpdated(false)], e);
      OccurrencesAppend([Toast(OfflineMessage, "warning")], n, e);
    }
    OccurrencesOne(Toast(OfflineMessage, "warning"), Toast(OfflineMessage, "warning"));
    OccurrencesOne(Toast(OfflineMessage, "warning"), OfflineNotification);
    OccurrencesOne(Toast(OfflineMessage, "warning"), BackOnlineNotification);
    OccurrencesOne(UiUpdated(false), Toast(OfflineMessage, "warning"));
    OccurrencesOne(UiUpdated(false), OfflineNotification);
    OccurrencesOne(UiUpdated(false), BackOnlineNotification);
    if notifier {
      OccurrencesOne(OfflineNotification, Toast(OfflineMessage, "warning"));
      OccurrencesOne(OfflineNotification, OfflineNotification);
      OccurrencesOne(OfflineNotification, BackOnlineNotification);
    }
  }

  /** handleOnline always ends online with no offline period pending; the back-online
      notification (when the system exists) and toast come exactly when an offline
      period was pending. */
  lemma OnlineRule(s: DetectorState, notifier: bool)
    ensures var (t, es) := Online(s, notifier);
      && t.isOnline && !t.wasOffline && t.checkInterval == s.checkInterval
      && Occurrences(es, BackOnlineNotification) == (if s.wasOffline && notifier then 1 else 0)
      && Occurrences(es, Toast(BackOnlineMessage, "success")) == (if s.wasOffline then 1 else 0)
  {
    var es := Online(s, notifier).1;
    OccurrencesOne(UiUpdated(true), BackOnlineNotification);
    OccurrencesOne(UiUpdated(true), Toast(BackOnlineMessage, "success"));
    if s.wasOffline {
      var n: seq<Effect> := if notifier then [BackOnlineNotification] else [];
      var tail := [Toast(BackOnlineMessage, "success"), UiUpdated(true)];
      assert tail == [Toast(BackOnlineMessage, "success")] + [UiUpdated(true)];
      OccurrencesAppend(n, tail, BackOnlineNotification);
      OccurrencesAppend(n, tail, Toast(BackOnlineMessage, "success"));
      OccurrencesAppend([Toast(BackOnlineMessage, "success")], [UiUpdated(true)], BackOnlineNotification);
      OccurrencesAppend([Toast(BackOnlineMessage, "success")], [UiUpdated(true)], Toast(BackOnlineMessage, "success"));
      OccurrencesOne(Toast(BackOnlineMessage, "success"), BackOnlineNotification);
      OccurrencesOne(Toast(BackOnlineMessage, "success"), Toast(BackOnlineMessage, "success"));
      if notifier {
        OccurrencesOne(BackOnlineNotification, BackOnlineNotification);
        OccurrencesOne(BackOnlineNotification, Toast(BackOnlineMessage, "success"));
      }
    }
  }

  /** Two handleOnline calls in a row emit at most one back-online notification. */
  lemma TwoOnlinesAtMostOne(s: DetectorState, notifier: bool)
    ensures var (t, first) := Online(s, notifier);
      var (_, second) := Online(t, notifier);
      Occurrences(first + second, BackOnlineNotification) <= 1
  {
    var (t, first) := Online(s, notifier);
    OnlineRule(s, notifier);
    OnlineRule(t, notifier);
    OccurrencesAppend(first, Online(t, notifier).1, BackOnlineNotification);
  }

  /** Going offline and back online announces the return exactly once. */
  lemma OfflineThenOnline(s: DetectorState)
    ensures var (t, _) := Offline(s, true);
      Occurrences(Online(t, true).1, BackOnlineNotification) == 1
  {
    OnlineRule(Offline(s, true).0, true);
  }

  /** After a tick the recorded status is the polled one; the tick does nothing when
      they already agree, and otherwise runs exactly the matching handler. */
  lemma TickRule(s: DetectorState, polled: bool, notifier: bool)
    ensures Tick(s, polled, notifier).0.isOnline == polled
    ensures Tick(s, polled, notifier).1 == [] <==> polled == s.isOnline
    ensures polled == s.isOnline ==> Tick(s, polled, notifier).0 == s
    ensures polled && !s.isOnline ==> Tick(s, polled, notifier) == Online(s, notifier)
    ensures !polled && s.isOnline ==> Tick(s, polled, notifier) == Offline(s, notifier)
  {
  }

  /** stopBackupCheck leaves no handle and clears a set one once; a second call does
      nothing. */
  lemma StopIdempotent(s: DetectorState, handle: int)
    requires handle != 0
    ensures BackupStopped(BackupStarted(s, handle)) == (s.(checkInterval := None), [IntervalCleared(handle)])
    ensures var (t, _) := BackupStopped(s);
      t.checkInterval.None? || t.checkInterval == Some(0)
    ensures var (t, _) := BackupStopped(s);
      BackupStopped(t) == (t, [])
  {
  }

  /** Without the API every field but `online` takes its fallback; with it, only the
      missing or falsy properties do. */
  lemma InfoFallbacks(s: DetectorState, api: Option<ConnectionApi>)
    ensures Info(s, api).online == s.isOnline
    ensures api.None? ==> Info(s, api) == ConnectionInfo(s.isOnline, "unknown", 0.0, 0.0, false)
    ensures api.Some? ==>
      && (api.value.effectiveType.Some? && api.value.effectiveType.value != "" ==> Info(s, api).kind == api.value.effectiveType.value)
      && (api.value.effectiveType.None? || api.value.effectiveType == Some("") ==> Info(s, api).kind == "unknown")
      && (api.value.downlink.Some? ==> Info(s, api).downlink == api.value.downlink.value)
      && (api.value.downlink.None? ==> Info(s, api).downlink == 0.0)
      && (api.value.rtt.Some? ==> Info(s, api).rtt == api.value.rtt.value)
      && (api.value.rtt.None? ==> Info(s, api).rtt == 0.0)
      && (Info(s, api).saveData <==> api.value.saveData == Some(true))
  {
  }

  // ---------------------------------------------------------------------------
  // The detector object

  class Detector {
    var isOnline: bool
    var wasOffline: bool
    var checkInterval: Option<int>
    /** Everything the handlers did to the page and asked of the notification system. */
    var effects: seq<Effect>

    function State(): DetectorState
      reads this
    {
      DetectorState(isOnline, wasOffline, checkInterval)
    }

    constructor (onLine: bool)
      ensures State() == Initial(onLine) && effects == []
    {
      isOnline, wasOffline, checkInterval := onLine, false, None;
      effects := [];
    }

    method HandleOnline(notifier: bool)
      modifies this
      ensures var (t, es) := Online(old(State()), notifier);
        State() == t && effects == old(effects) + es
    {
      isOnline := true;
      if wasOffline {
        if notifier {
          effects := effects + [BackOnlineNotification];
        }
        effects := effects + [Toast(BackOnlineMessage, "success")];
        wasOffline := false;
      }
      effects := effects + [UiUpdated(isOnline)];
    }

    method HandleOffline(notifier: bool)
      modifies this
      ensures var (t, es) := Offline(old(State()), notifier);
        State() == t && effects == old(effects) + es
    {
      isOnline := false;
      wasOffline := true;
      effects := effects + [Toast(OfflineMessage, "warning")];
      if notifier {
        effects := effects + [OfflineNotification];
      }
      effects := effects + [UiUpdated(isOnline)];
    }

    /** One run of the interval callback. */
    method BackupTick(polled: bool, notifier: bool)
      modifies this
      ensures var (t, es) := Tick(old(State()), polled, notifier);
        State() == t && effects == old(effects) + es
    {
      if polled != isOnline {
        if polled {
          HandleOnline(notifier);
        } else {
          HandleOffline(notifier);
        }
      }
    }

    method StartBackupCheck(handle: int)
      modifies this
      ensures State() == BackupStarted(old(State()), handle) && effects == old(effects)
    {
      checkInterval := Some(handle);
    }

    method StopBackupCheck()
      modifies this
      ensures var (t, es) := BackupStopped(old(State()));
        State() == t && effects == old(effects) + es
    {
      if checkInterval.Some? && checkInterval.value != 0 {
        effects := effects + [IntervalCleared(checkInterval.value)];
        checkInterval := None;
      }
    }

    method GetConnectionInfo(api: Option<ConnectionApi>) returns (info: ConnectionInfo)
      ensures info == Info(State(), api)
    {
      if api.None? {
        return ConnectionInfo(isOnline, "unknown", 0.0, 0.0, false);
      }
      var c := api.value;
      var kind := if c.effectiveType.Some? && c.effectiveType.value != "" then c.effectiveType.value else "unknown";
      var downlink := if c.downlink.Some? then c.downlink.value else 0.0;
      var rtt := if c.rtt.Some? then c.rtt.value else 0.0;
      info := ConnectionInfo(isOnline, kind, downlink, rtt, c.saveData.Some? && c.saveData.value);
    }
  }
}
