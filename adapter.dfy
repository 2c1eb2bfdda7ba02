// The adapter of app/adapter.py: summary generation through the registry,
// the severity histogram, per-application statistics and the system
// overview, and the legacy elderly-care conversions.

module Adapter {
  import opened PyRuntime
  import opened Messages
  import opened Externals
  import opened Registry
  import ElderlyService

  // =====================================================================
  // Counters

  /** A dict from strings to counts, in insertion order. */
  type Counter = seq<(string, nat)>

  function CounterKeys(c: Counter): (ks: seq<string>)
    ensures |ks| == |c| && forall i :: 0 <= i < |c| ==> ks[i] == c[i].0
  {
    if c == [] then [] else [c[0].0] + CounterKeys(c[1..])
  }

  /** `c.get(k, 0)` */
  function CountOf(c: Counter, k: string): nat
  {
    if c == [] then 0 else if c[0].0 == k then c[0].1 else CountOf(c[1..], k)
  }

  /** `sum(c.values())` */
  function Total(c: Counter): nat
  {
    if c == [] then 0 else c[0].1 + Total(c[1..])
  }

  /** `c[k] = c.get(k, 0) + 1`: an existing key keeps its place, a new one is appended. */
  function Bump(c: Counter, k: string): (r: Counter)
    ensures CounterKeys(r) == if k in CounterKeys(c) then CounterKeys(c) else CounterKeys(c) + [k]
    ensures CountOf(r, k) == CountOf(c, k) + 1
    ensures forall other :: other != k ==> CountOf(r, other) == CountOf(c, other)
    ensures Total(r) == Total(c) + 1
  {
    if c == [] then [(k, 1)]
    else if c[0].0 == k then [(k, c[0].1 + 1)] + c[1..]
    else
      var r := [c[0]] + Bump(c[1..], k);
      assert r[1..] == Bump(c[1..], k);
      assert CounterKeys(c) == [c[0].0] + CounterKeys(c[1..]);
      r
  }

  /** The counter a loop builds by bumping each key of `ks` in turn, from an empty dict. */
  function Tally(ks: seq<string>): (r: Counter)
    ensures Total(r) == |ks|
    ensures Distinct(CounterKeys(r))
    ensures forall k :: k in CounterKeys(r) <==> k in ks
    ensures forall k :: CountOf(r, k) == multiset(ks)[k]
  {
    if ks == [] then []
    else
      var init := ks[..|ks| - 1];
      var last := ks[|ks| - 1];
      assert ks == init + [last];
      var c := Tally(init);
      var r := Bump(c, last);
      assert Distinct(CounterKeys(r)) by {
        if last !in CounterKeys(c) {
          var keys := CounterKeys(c) + [last];
          forall i, j | 0 <= i < j < |keys| ensures keys[i] != keys[j] {
            if j == |keys| - 1 {
              assert keys[i] == CounterKeys(c)[i];
            }
          }
        }
      }
      r
  }

  /** Bumping one more key extends the tally. */
  lemma TallySnoc(ks: seq<string>, i: nat)
    requires i < |ks|
    ensures Tally(ks[..i + 1]) == Bump(Tally(ks[..i]), ks[i])
  {
    assert ks[..i + 1][..i] == ks[..i];
  }

  // =====================================================================
  // check_alert_severity

  const SeverityLevels: seq<string> := ["info", "warning", "critical", "emergency"]

  lemma {:induction false} CountOfZero(c: Counter, k: string)
    requires forall i :: 0 <= i < |c| ==> c[i].1 == 0
    ensures CountOf(c, k) == 0 && Total(c) == 0
  {
    if c != [] {
      CountOfZero(c[1..], k);
    }
  }

  function InitialSeverities(): (c: Counter)
    ensures CounterKeys(c) == SeverityLevels && Total(c) == 0
    ensures forall k :: CountOf(c, k) == 0
  {
    var c := [("info", 0), ("warning", 0), ("critical", 0), ("emergency", 0)];
    assert CounterKeys(c) == SeverityLevels by {
      var ks := CounterKeys(c);
      assert |ks| == 4 && ks[0] == "info" && ks[1] == "warning" && ks[2] == "critical" && ks[3] == "emergency";
    }
    assert forall k :: CountOf(c, k) == 0 && Total(c) == 0 by {
      forall k ensures CountOf(c, k) == 0 && Total(c) == 0 {
        CountOfZero(c, k);
      }
    }
    c
  }

  /** How many alerts have the lower-cased severity `level`. */
  function CountLevel(alerts: seq<Alert>, level: string): (n: nat)
    ensures n <= |alerts|
  {
    if alerts == [] then 0
    else CountLevel(alerts[..|alerts| - 1], level) + (if Lower(alerts[|alerts| - 1].severity) == level then 1 else 0)
  }

  /**
   * The histogram `check_alert_severity` returns: exactly the four levels, in
   * order, each counting the alerts whose lower-cased severity it is; other
   * severities are not counted.
   */
  function SeverityDistribution(alerts: seq<Alert>): (r: Counter)
    ensures CounterKeys(r) == SeverityLevels
    ensures forall k :: k in SeverityLevels ==> CountOf(r, k) == CountLevel(alerts, k)
    ensures Total(r) <= |alerts|
  {
    if alerts == [] then InitialSeverities()
    else
      var c := SeverityDistribution(alerts[..|alerts| - 1]);
      var severity := Lower(alerts[|alerts| - 1].severity);
      if severity in SeverityLevels then Bump(c, severity) else c
  }

  /** `check_alert_severity` as the code runs it. */
  method CheckAlertSeverity(alerts: seq<Alert>) returns (counts: Counter)
    ensures counts == SeverityDistribution(alerts)
  {
    counts := InitialSeverities();
    var i := 0;
    while i < |alerts|
      invariant 0 <= i <= |alerts|
      invariant counts == SeverityDistribution(alerts[..i])
    {
      assert alerts[..i + 1][..i] == alerts[..i];
      var severity := Lower(alerts[i].severity);
      if severity in CounterKeys(counts) {
        counts := Bump(counts, severity);
      }
      i := i + 1;
    }
    assert alerts[..i] == alerts;
  }

  // =====================================================================
  // get_application_statistics and get_system_overview

  /** `[alert for alert in alerts if alert.app_id == app_id]` */
  function AppAlerts(alerts: seq<Alert>, appId: string): (r: seq<Alert>)
    ensures |r| <= |alerts|
    ensures forall a :: a in r <==> a in alerts && a.appId == appId
  {
    if alerts == [] then []
    else (if alerts[0].appId == appId then [alerts[0]] else []) + AppAlerts(alerts[1..], appId)
  }

  /** The filter keeps order and multiplicity: it distributes over concatenation. */
  lemma {:induction false} AppAlertsConcat(xs: seq<Alert>, ys: seq<Alert>, appId: string)
    ensures AppAlerts(xs + ys, appId) == AppAlerts(xs, appId) + AppAlerts(ys, appId)
  {
    if xs == [] {
      assert xs + ys == ys;
    } else {
      var head := if xs[0].appId == appId then [xs[0]] else [];
      var zs := xs + ys;
      assert zs[0] == xs[0] && zs[1..] == xs[1..] + ys;
      calc {
        AppAlerts(zs, appId);
        head + AppAlerts(xs[1..] + ys, appId);
        { AppAlertsConcat(xs[1..], ys, appId); }
        head + (AppAlerts(xs[1..], appId) + AppAlerts(ys, appId));
        (head + AppAlerts(xs[1..], appId)) + AppAlerts(ys, appId);
      }
    }
  }

  /** An alert is kept exactly when it belongs to the application. */
  lemma AppAlertsSingle(a: Alert, appId: string)
    ensures AppAlerts([a], appId) == if a.appId == appId then [a] else []
  {
    assert [a][1..] == [];
  }

  /** `[notif for notif in notifications if notif.app_id == app_id]` */
  function AppNotifications(notifications: seq<Notification>, appId: string): (r: seq<Notification>)
    ensures |r| <= |notifications|
    ensures forall n :: n in r <==> n in notifications && n.appId == appId
  {
    if notifications == [] then []
    else (if notifications[0].appId == appId then [notifications[0]] else []) + AppNotifications(notifications[1..], appId)
  }

  /** The notification filter keeps order and multiplicity. */
  lemma {:induction false} AppNotificationsConcat(xs: seq<Notification>, ys: seq<Notification>, appId: string)
    ensures AppNotifications(xs + ys, appId) == AppNotifications(xs, appId) + AppNotifications(ys, appId)
  {
    if xs == [] {
      assert xs + ys == ys;
    } else {
      var head := if xs[0].appId == appId then [xs[0]] else [];
      var zs := xs + ys;
      assert zs[0] == xs[0] && zs[1..] == xs[1..] + ys;
      calc {
        AppNotifications(zs, appId);
        head + AppNotifications(xs[1..] + ys, appId);
        { AppNotificationsConcat(xs[1..], ys, appId); }
        head + (AppNotifications(xs[1..], appId) + AppNotifications(ys, appId));
        (head + AppNotifications(xs[1..], appId)) + AppNotifications(ys, appId);
      }
    }
  }

  /** A notification is kept exactly when it belongs to the application. */
  lemma AppNotificationsSingle(n: Notification, appId: string)
    ensures AppNotifications([n], appId) == if n.appId == appId then [n] else []
  {
    assert [n][1..] == [];
  }

  function AlertTypes(alerts: seq<Alert>): (r: seq<string>)
    ensures |r| == |alerts| && forall i :: 0 <= i < |alerts| ==> r[i] == alerts[i].alertType
  {
    seq(|alerts|, i requires 0 <= i < |alerts| => alerts[i].alertType)
  }

  function Channels(notifications: seq<Notification>): (r: seq<string>)
    ensures |r| == |notifications| && forall i :: 0 <= i < |notifications| ==> r[i] == notifications[i].channel
  {
    seq(|notifications|, i requires 0 <= i < |notifications| => notifications[i].channel)
  }

  /** The dict `get_application_statistics` returns. */
  datatype Statistics = Statistics(
    appId: string,
    totalAlerts: nat,
    totalNotifications: nat,
    successfulNotifications: nat,
    severityDistribution: Counter,
    alertTypes: Counter,
    notificationChannels: Counter)

  /** The statistics of one application: only its own alerts and notifications are counted. */
  function StatisticsOf(appId: string, alerts: seq<Alert>, notifications: seq<Notification>): (s: Statistics)
    ensures s.appId == appId
    ensures s.totalAlerts == |AppAlerts(alerts, appId)| <= |alerts|
    ensures s.totalNotifications == |AppNotifications(notifications, appId)| <= |notifications|
    ensures s.successfulNotifications == CountSent(AppNotifications(notifications, appId))
  {
    var appAlerts := AppAlerts(alerts, appId);
    var appNotifications := AppNotifications(notifications, appId);
    Statistics(appId, |appAlerts|, |appNotifications|, CountSent(appNotifications),
               SeverityDistribution(appAlerts), Tally(AlertTypes(appAlerts)), Tally(Channels(appNotifications)))
  }

  /**
   * The type counts add up to the application's alerts and the channel
   * counts to its notifications, each counting its key's occurrences; at most
   * all of them were sent successfully.
   */
  lemma StatisticsCounts(appId: string, alerts: seq<Alert>, notifications: seq<Notification>)
    ensures var s := StatisticsOf(appId, alerts, notifications);
      && s.successfulNotifications <= s.totalNotifications
      && Total(s.alertTypes) == s.totalAlerts && Total(s.notificationChannels) == s.totalNotifications
      && (forall t :: CountOf(s.alertTypes, t) == multiset(AlertTypes(AppAlerts(alerts, appId)))[t])
      && (forall ch :: CountOf(s.notificationChannels, ch) == multiset(Channels(AppNotifications(notifications, appId)))[ch])
      && s.severityDistribution == SeverityDistribution(AppAlerts(alerts, appId))
  {
  }

  /** The alert-type loop of `get_application_statistics`. */
  method CountAlertTypes(alerts: seq<Alert>) returns (types: Counter)
    ensures types == Tally(AlertTypes(alerts))
  {
    ghost var ks := AlertTypes(alerts);
    types := [];
    for i := 0 to |alerts|
      invariant types == Tally(ks[..i])
    {
      TallySnoc(ks, i);
      assert ks[i] == alerts[i].alertType;
      types := Bump(types, alerts[i].alertType);
    }
    assert ks[..|alerts|] == ks;
  }

  /** The notification-channel loop of `get_application_statistics`. */
  method CountChannels(notifications: seq<Notification>) returns (channels: Counter)
    ensures channels == Tally(Channels(notifications))
  {
    ghost var ks := Channels(notifications);
    channels := [];
    for j := 0 to |notifications|
      invariant channels == Tally(ks[..j])
    {
      TallySnoc(ks, j);
      assert ks[j] == notifications[j].channel;
      channels := Bump(channels, notifications[j].channel);
    }
    assert ks[..|notifications|] == ks;
  }

  /** `get_application_statistics` as the code runs it: the filters, then the counting loops. */
  method GetApplicationStatistics(appId: string, alerts: seq<Alert>, notifications: seq<Notification>)
    returns (s: Statistics)
    ensures s == StatisticsOf(appId, alerts, notifications)
  {
    var appAlerts := AppAlerts(alerts, appId);
    var appNotifications := AppNotifications(notifications, appId);
    var severities := CheckAlertSeverity(appAlerts);
    var types := CountAlertTypes(appAlerts);
    var channels := CountChannels(appNotifications);
    s := Statistics(appId, |appAlerts|, |appNotifications|, CountSent(appNotifications), severities, types, channels);
  }

  /** The dict `get_system_overview` returns; `applications` is keyed by app id. */
  datatype Overview = Overview(
    totalAlerts: nat,
    totalNotifications: nat,
    applications: map<string, Statistics>,
    overallSeverity: Counter)

  /** `set(alert.app_id for alert in alerts)` */
  function AlertAppIds(alerts: seq<Alert>): set<string>
  {
    set a | a in alerts :: a.appId
  }

  /** An application that raised an alert counts at least one alert. */
  lemma RaisedAlertIsCounted(alerts: seq<Alert>, notifications: seq<Notification>, id: string)
    requires id in AlertAppIds(alerts)
    ensures StatisticsOf(id, alerts, notifications).totalAlerts >= 1
  {
    var a :| a in alerts && a.appId == id;
    assert a in AppAlerts(alerts, id);
  }

  /** Every entry is the statistics of its application, which counts at least one alert. */
  predicate Describes(applications: map<string, Statistics>, alerts: seq<Alert>, notifications: seq<Notification>)
  {
    forall id :: id in applications ==>
      applications[id] == StatisticsOf(id, alerts, notifications) && applications[id].totalAlerts >= 1
  }

  lemma DescribesAdd(applications: map<string, Statistics>, alerts: seq<Alert>, notifications: seq<Notification>,
                     id: string)
    requires Describes(applications, alerts, notifications) && id in AlertAppIds(alerts)
    ensures Describes(applications[id := StatisticsOf(id, alerts, notifications)], alerts, notifications)
  {
    var stats := StatisticsOf(id, alerts, notifications);
    RaisedAlertIsCounted(alerts, notifications, id);
    var updated := applications[id := stats];
    forall j | j in updated
      ensures updated[j] == StatisticsOf(j, alerts, notifications) && updated[j].totalAlerts >= 1
    {
      if j != id {
        assert updated[j] == applications[j];
      }
    }
  }

  /** Moving one element from the remaining part of a set to the done part. */
  lemma TakeOne<T>(all: set<T>, remaining: set<T>, x: T)
    requires remaining <= all && x in remaining
    ensures (all - remaining) + {x} == all - (remaining - {x})
    ensures |remaining - {x}| < |remaining|
  {
    assert remaining == (remaining - {x}) + {x};
  }

  lemma NothingRemains<T>(all: set<T>, remaining: set<T>)
    requires remaining == {}
    ensures all - remaining == all
  {
  }

  lemma KeysAdd<K, V>(m: map<K, V>, k: K, v: V)
    ensures m[k := v].Keys == m.Keys + {k}
  {
  }

  /**
   * `get_system_overview`: one statistics entry for exactly the applications
   * that raised an alert, each of which therefore counts at least one alert.
   */
  method GetSystemOverview(alerts: seq<Alert>, notifications: seq<Notification>) returns (o: Overview)
    ensures o.totalAlerts == |alerts| && o.totalNotifications == |notifications|
    ensures o.overallSeverity == SeverityDistribution(alerts)
    ensures o.applications.Keys == AlertAppIds(alerts)
    ensures Describes(o.applications, alerts, notifications)
  {
    var severity := CheckAlertSeverity(alerts);
    var applications: map<string, Statistics> := map[];
    var appIds := AlertAppIds(alerts);
    var remaining := appIds;
    while remaining != {}
      invariant remaining <= appIds
      invariant applications.Keys == appIds - remaining
      invariant Describes(applications, alerts, notifications)
      decreases |remaining|
    {
      var id :| id in remaining;
      var stats := GetApplicationStatistics(id, alerts, notifications);
      DescribesAdd(applications, alerts, notifications, id);
      TakeOne(appIds, remaining, id);
      KeysAdd(applications, id, stats);
      applications := applications[id := stats];
      remaining := remaining - {id};
    }
    NothingRemains(appIds, remaining);
    o := Overview(|alerts|, |notifications|, applications, severity);
  }

  // =====================================================================
  // generate_application_summary

  /** `[alert for alert in alerts if alert.app_id == app_id and entity_id in alert.affected_entities]` */
  function EntityAlerts(alerts: seq<Alert>, appId: string, entityId: string): (r: seq<Alert>)
    ensures |r| <= |alerts|
    ensures forall a :: a in r <==> a in alerts && a.appId == appId && entityId in a.affectedEntities
  {
    if alerts == [] then []
    else (if alerts[0].appId == appId && entityId in alerts[0].affectedEntities then [alerts[0]] else []) +
         EntityAlerts(alerts[1..], appId, entityId)
  }

  /** The entity filter keeps order and multiplicity. */
  lemma {:induction false} EntityAlertsConcat(xs: seq<Alert>, ys: seq<Alert>, appId: string, entityId: string)
    ensures EntityAlerts(xs + ys, appId, entityId) == EntityAlerts(xs, appId, entityId) + EntityAlerts(ys, appId, entityId)
  {
    if xs == [] {
      assert xs + ys == ys;
    } else {
      var head := if xs[0].appId == appId && entityId in xs[0].affectedEntities then [xs[0]] else [];
      var zs := xs + ys;
      assert zs[0] == xs[0] && zs[1..] == xs[1..] + ys;
      calc {
        EntityAlerts(zs, appId, entityId);
        head + EntityAlerts(xs[1..] + ys, appId, entityId);
        { EntityAlertsConcat(xs[1..], ys, appId, entityId); }
        head + (EntityAlerts(xs[1..], appId, entityId) + EntityAlerts(ys, appId, entityId));
        (head + EntityAlerts(xs[1..], appId, entityId)) + EntityAlerts(ys, appId, entityId);
      }
    }
  }

  /** An alert is kept exactly when it belongs to the application and names the entity. */
  lemma EntityAlertsSingle(a: Alert, appId: string, entityId: string)
    ensures EntityAlerts([a], appId, entityId) == if a.appId == appId && entityId in a.affectedEntities then [a] else []
  {
    assert [a][1..] == [];
  }

  /**
   * `generate_application_summary`: None for an unregistered application,
   * otherwise the plugin's summary of the entity's alerts of that
   * application and of that application's notifications.
   */
  function GenerateApplicationSummary(reg: PluginRegistry, env: Env, appId: string, entityId: string, period: string,
                                      alerts: seq<Alert>, notifications: seq<Notification>)
    : (r: Option<ApplicationSummary>)
    reads reg
    ensures r.None? <==> appId !in reg.plugins
    ensures r.Some? ==> r.value == reg.plugins[appId].generateSummary(env, entityId, period,
      EntityAlerts(alerts, appId, entityId), AppNotifications(notifications, appId))
  {
    match reg.GetPlugin(appId)
    case None => None
    case Some(p) =>
      Some(p.generateSummary(env, entityId, period, EntityAlerts(alerts, appId, entityId),
                             AppNotifications(notifications, appId)))
  }

  /**
   * With the elderly-care plugin registered, the care summary counts only the
   * entity's elderly-care alerts and only elderly-care notifications.
   */
  lemma ElderlySummaryIsFiltered(libs: Libs, reg: PluginRegistry, env: Env, entityId: string, period: string,
                                 alerts: seq<Alert>, notifications: seq<Notification>)
    requires ElderlyService.AppId in reg.plugins && reg.plugins[ElderlyService.AppId] == ElderlyService.Plugin(libs)
    ensures var r := GenerateApplicationSummary(reg, env, ElderlyService.AppId, entityId, period, alerts, notifications);
      && r.Some?
      && (forall a :: a in r.value.alerts ==> a in alerts && a.appId == ElderlyService.AppId && entityId in a.affectedEntities)
      && (forall n :: n in r.value.notifications ==> n in notifications && n.appId == ElderlyService.AppId)
      && r.value.metrics["total_alerts"] == |EntityAlerts(alerts, ElderlyService.AppId, entityId)|
  {
    var filtered := EntityAlerts(alerts, ElderlyService.AppId, entityId);
    var own := AppNotifications(notifications, ElderlyService.AppId);
    var s := ElderlyService.Summary(env, entityId, period, filtered, own);
    assert GenerateApplicationSummary(reg, env, ElderlyService.AppId, entityId, period, alerts, notifications) == Some(s);
  }

  // =====================================================================
  // Legacy conversions

  /** The legacy alert carrying the fields of a generic alert. */
  function LegacyOf(a: Alert): (l: LegacyAlert)
    ensures l.alertType == a.alertType && l.score == a.score && l.alertId == a.alertId && l.timestamp == a.timestamp
    ensures l.patientId == (if a.affectedEntities != [] then a.affectedEntities[0] else "")
    ensures l.message == a.message
  {
    LegacyAlert(if a.affectedEntities != [] then a.affectedEntities[0] else "", a.timestamp, a.alertType, a.message,
                a.score, a.alertId)
  }

  /** The first alert of a rule's output in legacy form, None when there is none. */
  function FirstLegacy(alerts: Result<seq<Alert>>): Option<LegacyAlert>
  {
    if alerts.Ok? && alerts.value != [] then Some(LegacyOf(alerts.value[0])) else None
  }

  /** `sensor_to_alert`: the first alert of the elderly-care rules with the default thresholds. */
  function SensorToAlert(libs: Libs, env: Env, s: SensorReading): (r: Option<LegacyAlert>)
    ensures r.Some? <==> s.fallDetected || ElderlyService.VitalsAbnormal(s.vitals.heartRate, s.vitals.spo2, 120.0, 90.0)
    ensures r.Some? ==> r.value.patientId == s.patientId
    ensures s.fallDetected ==> r.value.alertType == "FALL_DETECTED" && r.value.score == 1.0
    ensures !s.fallDetected && r.Some? ==>
      r.value.alertType == "VITALS_ANOMALY" &&
      r.value.score == (if ElderlyService.VitalsSeverity(s.vitals.heartRate, s.vitals.spo2) == "critical" then 0.9 else 0.7)
  {
    FirstLegacy(ElderlyService.GenerateAlerts(libs, env, PSensorReading(s), None))
  }

  /** `medication_to_alert`: an alert exactly when the dose was not taken. */
  function MedicationToAlert(libs: Libs, env: Env, m: MedicationEvent): (r: Option<LegacyAlert>)
    ensures r.Some? <==> !m.taken
    ensures r.Some? ==> r.value.alertType == "MEDICATION_MISSED" && r.value.score == 0.8 && r.value.patientId == m.patientId
  {
    FirstLegacy(ElderlyService.GenerateAlerts(libs, env, PMedicationEvent(m), None))
  }

  /**
   * `family_communication_to_notification`: calls and texts are emergency
   * alerts when they answer an alert and wellness checks otherwise; any
   * other kind of communication is a daily update.
   */
  function FamilyCommunicationToNotification(c: FamilyCommunication): (n: FamilyNotification)
    ensures n.patientId == c.patientId && n.contactId == c.contactId && n.timestamp == c.timestamp
    ensures n.deliveryMethod == c.communicationType && n.message == c.message && n.sentSuccessfully == c.successful
    ensures n.notificationType == "EMERGENCY_ALERT" <==> c.communicationType in ["CALL", "SMS"] && c.alertId != ""
    ensures n.notificationType == "WELLNESS_CHECK" <==> c.communicationType in ["CALL", "SMS"] && c.alertId == ""
    ensures n.notificationType == "DAILY_UPDATE" <==> c.communicationType !in ["CALL", "SMS"]
  {
    var kind :=
      if c.communicationType in ["CALL", "SMS"] then (if c.alertId != "" then "EMERGENCY_ALERT" else "WELLNESS_CHECK")
      else "DAILY_UPDATE";
    FamilyNotification(c.patientId, c.contactId, c.timestamp, kind, c.communicationType, c.message, c.successful)
  }

  /** `[comm for comm in communications if not comm.successful]` */
  function FailedCommunications(comms: seq<FamilyCommunication>): (r: seq<FamilyCommunication>)
    ensures |r| <= |comms|
    ensures forall c :: c in r <==> c in comms && !c.successful
  {
    if comms == [] then []
    else (if !comms[0].successful then [comms[0]] else []) + FailedCommunications(comms[1..])
  }

  /** The failed communications keep their order and multiplicity. */
  lemma {:induction false} FailedCommunicationsConcat(xs: seq<FamilyCommunication>, ys: seq<FamilyCommunication>)
    ensures FailedCommunications(xs + ys) == FailedCommunications(xs) + FailedCommunications(ys)
  {
    if xs == [] {
      assert xs + ys == ys;
    } else {
      var head := if !xs[0].successful then [xs[0]] else [];
      var zs := xs + ys;
      assert zs[0] == xs[0] && zs[1..] == xs[1..] + ys;
      calc {
        FailedCommunications(zs);
        head + FailedCommunications(xs[1..] + ys);
        { FailedCommunicationsConcat(xs[1..], ys); }
        head + (FailedCommunications(xs[1..]) + FailedCommunications(ys));
        (head + FailedCommunications(xs[1..])) + FailedCommunications(ys);
      }
    }
  }

  /** A communication is kept exactly when it failed. */
  lemma FailedCommunicationsSingle(c: FamilyCommunication)
    ensures FailedCommunications([c]) == if c.successful then [] else [c]
  {
    assert [c][1..] == [];
  }

  /** The alert for the k-th failed communication. */
  function ContactFailedAlert(env: Env, k: nat, c: FamilyCommunication): (a: LegacyAlert)
    ensures a.patientId == c.patientId && a.timestamp == c.timestamp && a.alertId == env.uuid(k)
    ensures a.alertType == "FAMILY_CONTACT_FAILED" && a.score == 0.8
    ensures a.message == "Failed to contact family via " + c.communicationType
  {
    LegacyAlert(c.patientId, c.timestamp, "FAMILY_CONTACT_FAILED", "Failed to contact family via " + c.communicationType,
                0.8, env.uuid(k))
  }

  /** What `check_family_contact_status` returns: one alert per failed communication, in order. */
  function ContactStatusAlerts(env: Env, comms: seq<FamilyCommunication>): (r: seq<LegacyAlert>)
    ensures var failed := FailedCommunications(comms);
      && |r| == |failed|
      && forall i :: 0 <= i < |r| ==>
        && r[i].alertType == "FAMILY_CONTACT_FAILED" && r[i].score == 0.8
        && r[i].patientId == failed[i].patientId && r[i].timestamp == failed[i].timestamp
        && r[i].alertId == env.uuid(i)
  {
    var failed := FailedCommunications(comms);
    seq(|failed|, i requires 0 <= i < |failed| => ContactFailedAlert(env, i, failed[i]))
  }

  /** `check_family_contact_status` as the code runs it. */
  method CheckFamilyContactStatus(env: Env, record: ElderlyRecord) returns (alerts: seq<LegacyAlert>)
    ensures alerts == ContactStatusAlerts(env, record.familyCommunications)
  {
    var failed := FailedCommunications(record.familyCommunications);
    alerts := [];
    var i := 0;
    while i < |failed|
      invariant 0 <= i <= |failed|
      invariant |alerts| == i
      invariant forall j :: 0 <= j < i ==> alerts[j] == ContactFailedAlert(env, j, failed[j])
    {
      alerts := alerts + [ContactFailedAlert(env, |alerts|, failed[i])];
      i := i + 1;
    }
    assert alerts == ContactStatusAlerts(env, record.familyCommunications);
  }

  /** A record whose communications all went through raises no alert. */
  lemma {:induction false} AllSuccessfulNoAlerts(env: Env, comms: seq<FamilyCommunication>)
    requires forall i :: 0 <= i < |comms| ==> comms[i].successful
    ensures ContactStatusAlerts(env, comms) == []
  {
    if comms != [] {
      AllSuccessfulNoAlerts(env, comms[1..]);
    }
  }

  /** `should_notify_emergency_contacts` */
  predicate ShouldNotifyEmergencyContacts(alert: LegacyAlert): (b: bool)
    ensures b ==> alert.score >= 0.7
    ensures alert.alertType != "FALL" && alert.alertType != "VITALS_ANOMALY" ==> !b
    ensures (alert.alertType == "FALL" || alert.alertType == "VITALS_ANOMALY") && alert.score >= 0.7 ==> b
  {
    alert.alertType in ["FALL", "VITALS_ANOMALY"] && alert.score >= 0.7
  }

  /**
   * A fall reported by the elderly-care rules is not escalated: the rules
   * name it "FALL_DETECTED", and this check looks for "FALL".
   */
  lemma FallAlertIsNotEscalated(libs: Libs, env: Env, s: SensorReading)
    requires s.fallDetected
    ensures SensorToAlert(libs, env, s).Some?
    ensures !ShouldNotifyEmergencyContacts(SensorToAlert(libs, env, s).value)
  {
    var a := SensorToAlert(libs, env, s).value;
    assert a.alertType == "FALL_DETECTED";
    assert |a.alertType| == 13;
  }

  /** Abnormal vitals without a fall are escalated: their score is at least 0.7. */
  lemma AbnormalVitalsAreEscalated(libs: Libs, env: Env, s: SensorReading)
    requires !s.fallDetected && ElderlyService.VitalsAbnormal(s.vitals.heartRate, s.vitals.spo2, 120.0, 90.0)
    ensures SensorToAlert(libs, env, s).Some?
    ensures ShouldNotifyEmergencyContacts(SensorToAlert(libs, env, s).value)
  {
  }

  /** The present alerts of a list that may hold None, in order. */
  function Present(alerts: seq<Option<LegacyAlert>>): (r: seq<LegacyAlert>)
    ensures |r| <= |alerts|
    ensures forall a :: a in r <==> Some(a) in alerts
  {
    if alerts == [] then []
    else (if alerts[0].Some? then [alerts[0].value] else []) + Present(alerts[1..])
  }

  /** The present alerts keep their order and multiplicity. */
  lemma {:induction false} PresentConcat(xs: seq<Option<LegacyAlert>>, ys: seq<Option<LegacyAlert>>)
    ensures Present(xs + ys) == Present(xs) + Present(ys)
  {
    if xs == [] {
      assert xs + ys == ys;
    } else {
      var head := if xs[0].Some? then [xs[0].value] else [];
      var zs := xs + ys;
      assert zs[0] == xs[0] && zs[1..] == xs[1..] + ys;
      calc {
        Present(zs);
        head + Present(xs[1..] + ys);
        { PresentConcat(xs[1..], ys); }
        head + (Present(xs[1..]) + Present(ys));
        (head + Present(xs[1..])) + Present(ys);
      }
    }
  }

  /** A present alert is kept and an absent one dropped. */
  lemma PresentSingle(o: Option<LegacyAlert>)
    ensures Present([o]) == if o.Some? then [o.value] else []
  {
    assert [o][1..] == [];
  }

  /**
   * `build_care_summary`: the present alerts and the notifications (none when
   * not given), and a text stating how many of each there are.
   */
  function BuildCareSummary(patientId: string, alerts: seq<Option<LegacyAlert>>,
                            familyNotifications: Option<seq<FamilyNotification>>): (cs: CareSummary)
    ensures cs.patientId == patientId && cs.alerts == Present(alerts)
    ensures cs.familyNotifications == familyNotifications.GetOr([])
    ensures cs.summaryText == "Care Summary: " + NatToString(|cs.alerts|) + " alerts generated, " +
      NatToString(|cs.familyNotifications|) + " family notifications sent"
  {
    var present := Present(alerts);
    var notifications := if familyNotifications.Some? then familyNotifications.value else [];
    CareSummary(patientId, present, notifications,
                "Care Summary: " + NatToString(|present|) + " alerts generated, " +
                NatToString(|notifications|) + " family notifications sent")
  }
}
