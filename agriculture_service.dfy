// The agriculture plugin of app/plugins/agriculture_service.py: protobuf
// packet parsing, the drought, frost and nutrient rules, the fan-out of an
// alert to the farm team of every affected field, and the field summary.

module AgricultureService {
  import opened PyRuntime
  import opened Messages
  import opened Externals
  import opened Registry

  const AppId: string := "agriculture"
  const AppName: string := "Smart Agriculture Monitoring"
  const SupportedDataTypes: seq<string> := ["crop_sensor_reading", "farming_event", "farm_contact"]

  const DroughtType: string := "DROUGHT_WARNING"
  const FrostType: string := "FROST_WARNING"
  /** The degree sign, U+00B0, of the frost alert's message. */
  const DegreeSign: char := 0xB0 as char
  const NutrientType: string := "NUTRIENT_DEFICIENCY"

  // =====================================================================
  // parse_data_packet

  /**
   * `parse_data_packet`: the payload (b"" when unset) is decoded as the
   * message of the packet's data type.  An unsupported type raises ValueError,
   * which is caught like a decoding error: both give None.
   */
  function ParsePacket(libs: Libs, p: DataPacket): (r: Parsed)
    ensures p.dataType !in SupportedDataTypes ==> r.IsNone()
    ensures p.dataType == "crop_sensor_reading" && libs.decodeCropSensorReading(p.payload.GetOr([])).Some? ==>
      r == PCropSensorReading(libs.decodeCropSensorReading(p.payload.GetOr([])).value)
    ensures p.dataType == "crop_sensor_reading" && libs.decodeCropSensorReading(p.payload.GetOr([])).None? ==>
      r.IsNone()
    ensures p.dataType == "farming_event" ==>
      r == (if libs.decodes("FarmingEvent", p.payload.GetOr([])) then PMessage("FarmingEvent") else PyValue(VNone))
    ensures p.dataType == "farm_contact" ==>
      r == (if libs.decodes("FarmContact", p.payload.GetOr([])) then PMessage("FarmContact") else PyValue(VNone))
  {
    var payload := p.payload.GetOr([]);
    if p.dataType == "crop_sensor_reading" then
      match libs.decodeCropSensorReading(payload)
      case Some(c) => PCropSensorReading(c)
      case None => PyValue(VNone)
    else if p.dataType == "farming_event" then
      if libs.decodes("FarmingEvent", payload) then PMessage("FarmingEvent") else PyValue(VNone)
    else if p.dataType == "farm_contact" then
      if libs.decodes("FarmContact", payload) then PMessage("FarmContact") else PyValue(VNone)
    else PyValue(VNone)
  }

  // =====================================================================
  // generate_alerts

  /** The drought and frost thresholds: 20.0 % moisture and 2.0 degrees Celsius unless the configuration sets them. */
  function Thresholds(config: Option<ApplicationConfig>): (t: (real, real))
    ensures t.0 == (if config.Some? && "drought_threshold" in config.value.thresholds
                    then config.value.thresholds["drought_threshold"] else 20.0)
    ensures t.1 == (if config.Some? && "frost_threshold" in config.value.thresholds
                    then config.value.thresholds["frost_threshold"] else 2.0)
  {
    if config.Some? && |config.value.thresholds| != 0 then
      var th := config.value.thresholds;
      (if "drought_threshold" in th then th["drought_threshold"] else 20.0,
       if "frost_threshold" in th then th["frost_threshold"] else 2.0)
    else (20.0, 2.0)
  }

  predicate Drought(c: CropSensorReading, droughtT: real)
  {
    c.soil.moistureLevel < droughtT
  }

  predicate Frost(c: CropSensorReading, frostT: real)
  {
    c.weather.temperature < frostT
  }

  /** Nitrogen below 20, phosphorus below 15 or potassium below 25. */
  predicate NutrientLow(soil: SoilData)
  {
    soil.nitrogenLevel < 20.0 || soil.phosphorusLevel < 15.0 || soil.potassiumLevel < 25.0
  }

  function DroughtSeverity(moisture: real): string
  {
    if moisture < 10.0 then "critical" else "warning"
  }

  /** The fields every crop alert shares: id, app, the reading's time and the field. */
  predicate CropAlertShape(a: Alert, env: Env, k: nat, c: CropSensorReading)
  {
    && a.alertId == env.uuid(k) && a.appId == AppId && a.timestamp == c.timestamp
    && a.affectedEntities == [c.fieldId] && a.sourcePacketId == ""
    && "field_id" in a.context && a.context["field_id"] == c.fieldId
  }

  /** A crop alert as its rule builds it: the shared fields, and the severity and score of its type. */
  predicate CropAlertOk(a: Alert, env: Env, k: nat, c: CropSensorReading)
  {
    && CropAlertShape(a, env, k, c)
    && if a.alertType == DroughtType then
         a.severity == DroughtSeverity(c.soil.moistureLevel) && a.score == (if a.severity == "critical" then 0.9 else 0.7)
       else if a.alertType == FrostType then a.severity == "critical" && a.score == 0.95
       else a.alertType == NutrientType && a.severity == "warning" && a.score == 0.6
  }

  function DroughtAlert(libs: Libs, env: Env, k: nat, c: CropSensorReading): (a: Alert)
    ensures CropAlertShape(a, env, k, c) && a.alertType == DroughtType
    ensures a.severity == DroughtSeverity(c.soil.moistureLevel)
    ensures a.score == (if a.severity == "critical" then 0.9 else 0.7)
    ensures a.message == "Low soil moisture detected: " + libs.formatNumber(c.soil.moistureLevel) + "%"
    ensures CropAlertOk(a, env, k, c)
  {
    var m := c.soil.moistureLevel;
    var severity := DroughtSeverity(m);
    Alert(env.uuid(k), AppId, c.timestamp, DroughtType, severity,
          "Low soil moisture detected: " + libs.formatNumber(m) + "%",
          if severity == "critical" then 0.9 else 0.7,
          map["moisture_level" := libs.formatNumber(m), "field_id" := c.fieldId, "crop_type" := c.cropType],
          [c.fieldId], "", "", None)
  }

  function FrostAlert(libs: Libs, env: Env, k: nat, c: CropSensorReading): (a: Alert)
    ensures CropAlertShape(a, env, k, c) && a.alertType == FrostType
    ensures a.severity == "critical" && a.score == 0.95
    ensures a.message == "Frost conditions detected: " + libs.formatNumber(c.weather.temperature) + [DegreeSign, 'C']
    ensures CropAlertOk(a, env, k, c)
  {
    var t := c.weather.temperature;
    Alert(env.uuid(k), AppId, c.timestamp, FrostType, "critical",
          "Frost conditions detected: " + libs.formatNumber(t) + [DegreeSign, 'C'], 0.95,
          map["temperature" := libs.formatNumber(t), "field_id" := c.fieldId, "crop_type" := c.cropType],
          [c.fieldId], "", "", None)
  }

  function NutrientAlert(libs: Libs, env: Env, k: nat, c: CropSensorReading): (a: Alert)
    ensures CropAlertShape(a, env, k, c) && a.alertType == NutrientType
    ensures a.severity == "warning" && a.score == 0.6
    ensures a.message == "Nutrient levels low - N:" + libs.formatNumber(c.soil.nitrogenLevel) +
                         ", P:" + libs.formatNumber(c.soil.phosphorusLevel) +
                         ", K:" + libs.formatNumber(c.soil.potassiumLevel)
    ensures CropAlertOk(a, env, k, c)
  {
    var s := c.soil;
    var n := libs.formatNumber(s.nitrogenLevel);
    var p := libs.formatNumber(s.phosphorusLevel);
    var q := libs.formatNumber(s.potassiumLevel);
    Alert(env.uuid(k), AppId, c.timestamp, NutrientType, "warning",
          "Nutrient levels low - N:" + n + ", P:" + p + ", K:" + q, 0.6,
          map["nitrogen" := n, "phosphorus" := p, "potassium" := q, "field_id" := c.fieldId],
          [c.fieldId], "", "", None)
  }

  function Count(b: bool): nat
  {
    if b then 1 else 0
  }

  /**
   * The alerts of one crop reading: a drought, a frost and a nutrient alert,
   * each exactly when its rule fires, in that order, the i-th drawing the
   * i-th uuid.
   */
  function CropAlerts(libs: Libs, env: Env, c: CropSensorReading, droughtT: real, frostT: real): (r: seq<Alert>)
    ensures |r| == Count(Drought(c, droughtT)) + Count(Frost(c, frostT)) + Count(NutrientLow(c.soil)) <= 3
    ensures forall i :: 0 <= i < |r| ==> CropAlertOk(r[i], env, i, c)
    ensures Drought(c, droughtT) ==> r[0].alertType == DroughtType
    ensures NutrientLow(c.soil) ==> r[|r| - 1].alertType == NutrientType
  {
    var d := if Drought(c, droughtT) then [DroughtAlert(libs, env, 0, c)] else [];
    var f := if Frost(c, frostT) then [FrostAlert(libs, env, |d|, c)] else [];
    var n := if NutrientLow(c.soil) then [NutrientAlert(libs, env, |d| + |f|, c)] else [];
    ThreeOk(d, f, n, env, c);
    d + f + n
  }

  /** Alerts numbered from 0 in each part stay numbered from 0 in the whole. */
  lemma ThreeOk(d: seq<Alert>, f: seq<Alert>, n: seq<Alert>, env: Env, c: CropSensorReading)
    requires forall i :: 0 <= i < |d| ==> CropAlertOk(d[i], env, i, c)
    requires forall i :: 0 <= i < |f| ==> CropAlertOk(f[i], env, |d| + i, c)
    requires forall i :: 0 <= i < |n| ==> CropAlertOk(n[i], env, |d| + |f| + i, c)
    ensures forall i :: 0 <= i < |d + f + n| ==> CropAlertOk((d + f + n)[i], env, i, c)
  {
    forall i | 0 <= i < |d + f + n| ensures CropAlertOk((d + f + n)[i], env, i, c) {
      if i < |d| {
        assert (d + f + n)[i] == d[i];
      } else if i < |d| + |f| {
        assert (d + f + n)[i] == f[i - |d|];
      } else {
        assert (d + f + n)[i] == n[i - |d| - |f|];
      }
    }
  }

  /** Each rule contributes exactly one alert of its type when it fires and none otherwise. */
  lemma CropAlertsCounts(libs: Libs, env: Env, c: CropSensorReading, droughtT: real, frostT: real)
    ensures var r := CropAlerts(libs, env, c, droughtT, frostT);
      && CountType(r, DroughtType) == Count(Drought(c, droughtT))
      && CountType(r, FrostType) == Count(Frost(c, frostT))
      && CountType(r, NutrientType) == Count(NutrientLow(c.soil))
  {
    var d := if Drought(c, droughtT) then [DroughtAlert(libs, env, 0, c)] else [];
    var f := if Frost(c, frostT) then [FrostAlert(libs, env, |d|, c)] else [];
    var n := if NutrientLow(c.soil) then [NutrientAlert(libs, env, |d| + |f|, c)] else [];
    assert CropAlerts(libs, env, c, droughtT, frostT) == d + f + n;
    ThreeCounts(d, f, n, Drought(c, droughtT), Frost(c, frostT), NutrientLow(c.soil));
  }

  /**
   * Three lists holding at most one alert each, of the drought, the frost and
   * the nutrient type, count each type once when their rule fired.
   */
  lemma ThreeCounts(d: seq<Alert>, f: seq<Alert>, n: seq<Alert>, bd: bool, bf: bool, bn: bool)
    requires |d| == Count(bd) && forall i :: 0 <= i < |d| ==> d[i].alertType == DroughtType
    requires |f| == Count(bf) && forall i :: 0 <= i < |f| ==> f[i].alertType == FrostType
    requires |n| == Count(bn) && forall i :: 0 <= i < |n| ==> n[i].alertType == NutrientType
    ensures CountType(d + f + n, DroughtType) == Count(bd)
    ensures CountType(d + f + n, FrostType) == Count(bf)
    ensures CountType(d + f + n, NutrientType) == Count(bn)
  {
    assert DroughtType[0] == 'D' && FrostType[0] == 'F' && NutrientType[0] == 'N';
    OptionalCount(d, bd, DroughtType, FrostType, NutrientType);
    OptionalCount(f, bf, FrostType, DroughtType, NutrientType);
    OptionalCount(n, bn, NutrientType, DroughtType, FrostType);
    CountTypeConcat(d + f, n, DroughtType); CountTypeConcat(d, f, DroughtType);
    CountTypeConcat(d + f, n, FrostType); CountTypeConcat(d, f, FrostType);
    CountTypeConcat(d + f, n, NutrientType); CountTypeConcat(d, f, NutrientType);
  }

  /** A list holding one alert of type `t` exactly when `b` counts `b` alerts of `t` and none of `u` or `v`. */
  lemma OptionalCount(xs: seq<Alert>, b: bool, t: string, u: string, v: string)
    requires t != u && t != v
    requires |xs| == Count(b) && forall i :: 0 <= i < |xs| ==> xs[i].alertType == t
    ensures CountType(xs, t) == Count(b) && CountType(xs, u) == 0 && CountType(xs, v) == 0
  {
    if xs != [] {
      assert xs[1..] == [];
    }
  }

  /** The rules of `generate_alerts` as the code runs them: each alert appended as its rule fires. */
  method GenerateCropAlerts(libs: Libs, env: Env, c: CropSensorReading, droughtT: real, frostT: real)
    returns (alerts: seq<Alert>)
    ensures alerts == CropAlerts(libs, env, c, droughtT, frostT)
  {
    alerts := [];
    if c.soil.moistureLevel < droughtT {
      alerts := alerts + [DroughtAlert(libs, env, |alerts|, c)];
    }
    if c.weather.temperature < frostT {
      alerts := alerts + [FrostAlert(libs, env, |alerts|, c)];
    }
    var soil := c.soil;
    if soil.nitrogenLevel < 20.0 || soil.phosphorusLevel < 15.0 || soil.potassiumLevel < 25.0 {
      alerts := alerts + [NutrientAlert(libs, env, |alerts|, c)];
    }
  }

  /** `generate_alerts`: anything but a crop sensor reading gives no alert; it never raises. */
  function GenerateAlerts(libs: Libs, env: Env, parsed: Parsed, config: Option<ApplicationConfig>)
    : (r: Result<seq<Alert>>)
    ensures !parsed.PCropSensorReading? ==> r == Ok([])
    ensures parsed.PCropSensorReading? ==>
      r == Ok(CropAlerts(libs, env, parsed.crop, Thresholds(config).0, Thresholds(config).1))
  {
    match parsed
    case PCropSensorReading(c) =>
      var t := Thresholds(config);
      Ok(CropAlerts(libs, env, c, t.0, t.1))
    case _ => Ok([])
  }

  // =====================================================================
  // Contacts and notifications

  /** `get_contacts`: the farm owner (the primary contact) and the agronomist. */
  function Contacts(entityId: string): (cs: seq<Contact>)
    ensures |cs| == 2 && cs[0].isPrimary && !cs[1].isPrimary
    ensures forall i :: 0 <= i < |cs| ==> cs[i].entityIds == [entityId] && cs[i].appId == AppId
  {
    [Contact("farmer_001", AppId, "Sarah Thompson (Farm Owner)", "farmer", "+1-555-0456", "sarah.thompson@farm.com",
             true, [entityId], map["preferred_method" := "sms"]),
     Contact("agronomist_001", AppId, "Dr. Michael Green", "agronomist", "+1-555-0789", "dr.green@agri-consult.com",
             false, [entityId], map["preferred_method" := "email"])]
  }

  /** `_get_notification_channel`: SMS for critical alerts, else the contact's choice. */
  function Channel(alert: Alert, c: Contact): (ch: string)
    ensures alert.severity == "critical" ==> ch == "SMS"
    ensures alert.severity != "critical" ==> ch == PreferredMethod(c)
  {
    if alert.severity == "critical" then "SMS" else PreferredMethod(c)
  }

  /** `_get_notification_type` */
  function NotificationType(alert: Alert): (t: string)
    ensures t == "URGENT_FARM_ALERT" <==> alert.severity == "critical"
    ensures t != "URGENT_FARM_ALERT" ==> t == "FARM_UPDATE"
  {
    if alert.severity == "critical" then "URGENT_FARM_ALERT" else "FARM_UPDATE"
  }

  /** `_create_notification_message` */
  function NotificationMessage(alert: Alert): (m: string)
    ensures alert.alertType == DroughtType ==>
      m == "DROUGHT ALERT: Field " + NamedEntity(alert) + " needs irrigation. " + alert.message
    ensures alert.alertType == FrostType ==>
      m == "FROST WARNING: Protect crops in Field " + NamedEntity(alert) + ". " + alert.message
    ensures alert.alertType == NutrientType ==>
      m == "FERTILIZER NEEDED: Field " + NamedEntity(alert) + " has nutrient deficiency. " + alert.message
    ensures alert.alertType !in [DroughtType, FrostType, NutrientType] ==> m == "FARM ALERT: " + alert.message
    ensures |alert.message| <= |m| && m[|m| - |alert.message|..] == alert.message
  {
    var fieldId := NamedEntity(alert);
    if alert.alertType == DroughtType then
      "DROUGHT ALERT: Field " + fieldId + " needs irrigation. " + alert.message
    else if alert.alertType == FrostType then
      "FROST WARNING: Protect crops in Field " + fieldId + ". " + alert.message
    else if alert.alertType == NutrientType then
      "FERTILIZER NEEDED: Field " + fieldId + " has nutrient deficiency. " + alert.message
    else "FARM ALERT: " + alert.message
  }

  /** The delivery success rates `_simulate_send_notification` draws against. */
  function SuccessRate(channel: string): (rate: real)
    ensures channel == "SMS" ==> rate == 0.95
    ensures channel == "EMAIL" ==> rate == 0.98
    ensures channel == "CALL" ==> rate == 0.85
    ensures channel !in ["SMS", "EMAIL", "CALL"] ==> rate == 0.9
    ensures 0.85 <= rate <= 0.98
  {
    if channel == "SMS" then 0.95
    else if channel == "EMAIL" then 0.98
    else if channel == "CALL" then 0.85
    else 0.9
  }

  /** The k-th notification of a `process_alert` call, sent to contact `c`. */
  function NotificationFor(env: Env, k: nat, alert: Alert, c: Contact): (n: Notification)
    ensures n.alertId == alert.alertId && n.timestamp == alert.timestamp && n.recipientId == c.contactId
    ensures n.appId == AppId && n.channel == Channel(alert, c) && n.notificationType == NotificationType(alert)
    ensures n.notificationId == env.uuid(k)
    ensures n.sentSuccessfully <==> env.random(k) < SuccessRate(Channel(alert, c))
    ensures n.message == NotificationMessage(alert)
  {
    var channel := Channel(alert, c);
    Notification(env.uuid(k), AppId, alert.timestamp, NotificationType(alert), channel, c.contactId,
                 NotificationMessage(alert), env.random(k) < SuccessRate(channel), alert.alertId, "", NoContent)
  }

  /** The notification in position n of a `process_alert` call: field n / 2, contact n % 2. */
  function Slot(env: Env, alert: Alert, n: nat): Notification
    requires n < 2 * |alert.affectedEntities|
  {
    NotificationFor(env, n, alert, Contacts(alert.affectedEntities[n / 2])[n % 2])
  }

  lemma SlotOf(env: Env, alert: Alert, i: nat, j: nat)
    requires i < |alert.affectedEntities| && j < 2
    ensures Slot(env, alert, 2 * i + j) == NotificationFor(env, 2 * i + j, alert, Contacts(alert.affectedEntities[i])[j])
  {
    assert (2 * i + j) / 2 == i && (2 * i + j) % 2 == j;
  }

  /**
   * What `process_alert` returns: for each affected field in order, one
   * notification per contact in order, the n-th drawing the n-th uuid and random number.
   */
  function AlertNotifications(env: Env, alert: Alert): (r: seq<Notification>)
    ensures |r| == 2 * |alert.affectedEntities|
    ensures forall n :: 0 <= n < |r| ==> r[n] == Slot(env, alert, n)
  {
    seq(2 * |alert.affectedEntities|, n requires 0 <= n < 2 * |alert.affectedEntities| => Slot(env, alert, n))
  }

  /** The notifications sent so far are the first slots of the alert's fan-out. */
  predicate SlotsSoFar(env: Env, alert: Alert, ns: seq<Notification>)
  {
    |ns| <= 2 * |alert.affectedEntities| && forall n :: 0 <= n < |ns| ==> ns[n] == Slot(env, alert, n)
  }

  /** Sending the next notification, to contact `j` of entity `i`, fills the next slot. */
  lemma SlotsSoFarSnoc(env: Env, alert: Alert, ns: seq<Notification>, i: nat, j: nat)
    requires SlotsSoFar(env, alert, ns) && |ns| == 2 * i + j
    requires i < |alert.affectedEntities| && j < 2
    ensures SlotsSoFar(env, alert, ns + [NotificationFor(env, |ns|, alert, Contacts(alert.affectedEntities[i])[j])])
  {
    var last := NotificationFor(env, |ns|, alert, Contacts(alert.affectedEntities[i])[j]);
    var next := ns + [last];
    SlotOf(env, alert, i, j);
    forall n | 0 <= n < |next| ensures next[n] == Slot(env, alert, n) {
      if n < |ns| {
        assert next[n] == ns[n];
      } else {
        assert n == 2 * i + j && next[n] == last;
      }
    }
  }

  /** `process_alert` as the code runs it: fields in the outer loop, contacts in the inner one. */
  method ProcessAlert(env: Env, alert: Alert) returns (notifications: seq<Notification>)
    ensures notifications == AlertNotifications(env, alert)
  {
    notifications := [];
    var i := 0;
    while i < |alert.affectedEntities|
      invariant 0 <= i <= |alert.affectedEntities|
      invariant |notifications| == 2 * i
      invariant SlotsSoFar(env, alert, notifications)
    {
      var entityId := alert.affectedEntities[i];
      var contacts := Contacts(entityId);
      var j := 0;
      while j < |contacts|
        invariant 0 <= j <= |contacts| == 2
        invariant |notifications| == 2 * i + j
        invariant SlotsSoFar(env, alert, notifications)
      {
        SlotsSoFarSnoc(env, alert, notifications, i, j);
        notifications := notifications + [NotificationFor(env, |notifications|, alert, contacts[j])];
        j := j + 1;
      }
      i := i + 1;
    }
    assert notifications == AlertNotifications(env, alert);
  }

  /**
   * Every notification carries the alert's id and time; each field reaches
   * the farm owner and then the agronomist, by SMS when the alert is critical.
   */
  lemma NotificationsReachFarmTeam(env: Env, alert: Alert, i: nat)
    requires i < |alert.affectedEntities|
    ensures var r := AlertNotifications(env, alert);
      && r[2 * i].recipientId == "farmer_001" && r[2 * i + 1].recipientId == "agronomist_001"
      && r[2 * i].alertId == alert.alertId && r[2 * i + 1].alertId == alert.alertId
      && r[2 * i].timestamp == alert.timestamp && r[2 * i + 1].timestamp == alert.timestamp
      && (alert.severity == "critical" ==> r[2 * i].channel == "SMS" && r[2 * i + 1].channel == "SMS")
      && (alert.severity != "critical" ==> r[2 * i].channel == "SMS" && r[2 * i + 1].channel == "EMAIL")
  {
    assert (2 * i) / 2 == i && (2 * i) % 2 == 0;
    assert (2 * i + 1) / 2 == i && (2 * i + 1) % 2 == 1;
    var cs := Contacts(alert.affectedEntities[i]);
    assert PreferredMethod(cs[0]) == Upper("sms") == "SMS";
    assert PreferredMethod(cs[1]) == Upper("email") == "EMAIL";
  }

  // =====================================================================
  // generate_summary

  /** `generate_summary`: the field summary with its five metrics and its text. */
  function Summary(env: Env, entityId: string, period: string, alerts: seq<Alert>,
                   notifications: seq<Notification>): (s: ApplicationSummary)
    ensures s.appId == AppId && s.summaryId == env.uuid(0) && s.period == period && s.entityIds == [entityId]
    ensures s.alerts == alerts && s.notifications == notifications
    ensures s.metrics.Keys == {"total_alerts", "drought_alerts", "frost_alerts", "nutrient_alerts", "notifications_sent"}
    ensures s.metrics["total_alerts"] == |alerts| && s.metrics["notifications_sent"] == |notifications|
    ensures s.metrics["drought_alerts"] == CountType(alerts, DroughtType)
    ensures s.metrics["frost_alerts"] == CountType(alerts, FrostType)
    ensures s.metrics["nutrient_alerts"] == CountType(alerts, NutrientType)
    ensures s.metrics["drought_alerts"] + s.metrics["frost_alerts"] + s.metrics["nutrient_alerts"]
            <= s.metrics["total_alerts"]
    ensures |alerts| == 0 <==> s.summaryText == "Field " + entityId + ": No alerts during " + period + ". Crop conditions normal."
    ensures |alerts| != 0 ==>
      s.summaryText ==
        "Field " + entityId + ": " + NatToString(|alerts|) + " alerts during " + period + ". " +
        "Drought warnings: " + NatToString(s.metrics["drought_alerts"]) +
        ", Frost warnings: " + NatToString(s.metrics["frost_alerts"]) + ". " +
        NatToString(|notifications|) + " notifications sent to farm team."
  {
    var drought := CountType(alerts, DroughtType);
    var frost := CountType(alerts, FrostType);
    TypeCountsDisjoint(alerts, DroughtType, FrostType, NutrientType);
    var metrics := map[
      "total_alerts" := |alerts|,
      "drought_alerts" := drought,
      "frost_alerts" := frost,
      "nutrient_alerts" := CountType(alerts, NutrientType),
      "notifications_sent" := |notifications|];
    var text :=
      if |alerts| == 0 then "Field " + entityId + ": No alerts during " + period + ". Crop conditions normal."
      else "Field " + entityId + ": " + NatToString(|alerts|) + " alerts during " + period + ". " +
           "Drought warnings: " + NatToString(drought) + ", Frost warnings: " + NatToString(frost) + ". " +
           NatToString(|notifications|) + " notifications sent to farm team.";
    assert |alerts| != 0 ==> text[|"Field " + entityId + ": "|] != 'N';
    ApplicationSummary(env.uuid(0), AppId, env.now, period, alerts, notifications, [entityId], metrics, text)
  }

  // =====================================================================
  // The plugin

  function Plugin(libs: Libs): (p: Registry.Plugin)
    ensures p.appId == AppId && p.appName == AppName && p.supportedDataTypes == SupportedDataTypes
  {
    Registry.Plugin(AppId, AppName, SupportedDataTypes,
      (env, packet) => Ok(ParsePacket(libs, packet)),
      (env, parsed, config) => GenerateAlerts(libs, env, parsed, config),
      entityId => Contacts(entityId),
      (env, alert) => Ok(AlertNotifications(env, alert)),
      (env, entityId, period, alerts, notifications) => Summary(env, entityId, period, alerts, notifications))
  }

  /** The agriculture plugin passes `validate_plugin`. */
  lemma PluginValidates(libs: Libs)
    ensures ValidatePlugin(AttributesOf(Plugin(libs))) == true
  {
    IdentityValidates(Plugin(libs));
  }

  /** Any plugin record with this service's id and name passes `validate_plugin`. */
  lemma IdentityValidates(p: Registry.Plugin)
    requires p.appId == AppId && p.appName == AppName
    ensures ValidatePlugin(AttributesOf(p)) == true
  {
    assert AppId[0] == 'a' && AppName[0] == 'S';
    StripNonBlank(AppId);
    StripNonBlank(AppName);
    ValidateRecord(p);
  }

  /** Through the registry, a packet of an unsupported data type yields no alert. */
  lemma UnsupportedPacketHasNoAlerts(libs: Libs, reg: PluginRegistry, env: Env, p: DataPacket,
                                     config: Option<ApplicationConfig>)
    requires p.appId in reg.plugins && reg.plugins[p.appId] == Plugin(libs)
    requires p.dataType !in SupportedDataTypes
    ensures reg.AlertsFor(env, p, config) == []
  {
  }

  /**
   * Through the registry, a crop reading yields the plugin's alerts, each
   * about the reading's field and back-filled with the packet's id, since the
   * plugin leaves `source_packet_id` empty.
   */
  lemma RoutedCropAlerts(libs: Libs, reg: PluginRegistry, env: Env, p: DataPacket, c: CropSensorReading,
                         config: Option<ApplicationConfig>)
    requires p.appId in reg.plugins && reg.plugins[p.appId] == Plugin(libs)
    requires p.dataType == "crop_sensor_reading" && libs.decodeCropSensorReading(p.payload.GetOr([])) == Some(c)
    ensures var r := reg.AlertsFor(env, p, config);
      var t := Thresholds(config);
      && |r| == |CropAlerts(libs, env, c, t.0, t.1)| <= 3
      && forall i :: 0 <= i < |r| ==>
        && r[i].alertId == env.uuid(i) && r[i].appId == p.appId && r[i].affectedEntities == [c.fieldId]
        && r[i].sourcePacketId == p.packetId
  {
    var t := Thresholds(config);
    var raw := CropAlerts(libs, env, c, t.0, t.1);
    assert reg.AlertsFor(env, p, config) == NormaliseAlerts(raw, p);
  }
}
