// The family communication service of app/family_service.py: the
// emergency-contact queries, the three kinds of message sent to a family,
// each recorded in the service's communication log, and the escalation of
// alerts to the primary contact and, for very urgent alerts, to every other
// contact.

module FamilyService {
  import opened PyRuntime
  import opened Messages
  import opened Externals
  import Adapter

  // =====================================================================
  // Contacts

  /**
   * `get_emergency_contacts`: the contacts to notify on alerts, in order, or
   * every contact when the flag is false.
   */
  function GetEmergencyContacts(record: ElderlyRecord, notifyOnAlert: bool): (r: seq<EmergencyContact>)
    ensures !notifyOnAlert ==> r == record.emergencyContacts
    ensures notifyOnAlert ==> r == NotifyOnAlert(record.emergencyContacts)
  {
    if notifyOnAlert then NotifyOnAlert(record.emergencyContacts) else record.emergencyContacts
  }

  /** `[c for c in contacts if c.notify_on_alert]`: a subsequence, the flagged contacts in order. */
  function NotifyOnAlert(contacts: seq<EmergencyContact>): (r: seq<EmergencyContact>)
    ensures |r| <= |contacts|
    ensures forall c :: c in r <==> c in contacts && c.notifyOnAlert
  {
    if contacts == [] then []
    else (if contacts[0].notifyOnAlert then [contacts[0]] else []) + NotifyOnAlert(contacts[1..])
  }

  /** The on-alert filter keeps order and multiplicity. */
  lemma {:induction false} NotifyOnAlertConcat(xs: seq<EmergencyContact>, ys: seq<EmergencyContact>)
    ensures NotifyOnAlert(xs + ys) == NotifyOnAlert(xs) + NotifyOnAlert(ys)
  {
    if xs == [] {
      assert xs + ys == ys;
    } else {
      var head := if xs[0].notifyOnAlert then [xs[0]] else [];
      var zs := xs + ys;
      assert zs[0] == xs[0] && zs[1..] == xs[1..] + ys;
      calc {
        NotifyOnAlert(zs);
        head + NotifyOnAlert(xs[1..] + ys);
        { NotifyOnAlertConcat(xs[1..], ys); }
        head + (NotifyOnAlert(xs[1..]) + NotifyOnAlert(ys));
        (head + NotifyOnAlert(xs[1..])) + NotifyOnAlert(ys);
      }
    }
  }

  /** A contact is kept exactly when it is flagged to be notified on alerts. */
  lemma NotifyOnAlertSingle(c: EmergencyContact)
    ensures NotifyOnAlert([c]) == if c.notifyOnAlert then [c] else []
  {
    assert [c][1..] == [];
  }

  /** The contacts that are not primary, in order. */
  function NonPrimary(contacts: seq<EmergencyContact>): (r: seq<EmergencyContact>)
    ensures |r| <= |contacts|
    ensures forall c :: c in r <==> c in contacts && !c.isPrimary
  {
    if contacts == [] then []
    else
      var init := contacts[..|contacts| - 1];
      var last := contacts[|contacts| - 1];
      assert contacts == init + [last];
      NonPrimary(init) + (if !last.isPrimary then [last] else [])
  }

  /** The non-primary filter keeps order and multiplicity. */
  lemma {:induction false} NonPrimaryConcat(xs: seq<EmergencyContact>, ys: seq<EmergencyContact>)
    ensures NonPrimary(xs + ys) == NonPrimary(xs) + NonPrimary(ys)
    decreases |ys|
  {
    if ys == [] {
      assert xs + ys == xs;
    } else {
      var init, last := ys[..|ys| - 1], ys[|ys| - 1];
      var tail := if !last.isPrimary then [last] else [];
      assert (xs + ys)[..|xs + ys| - 1] == xs + init;
      assert (xs + ys)[|xs + ys| - 1] == last;
      assert NonPrimary(ys) == NonPrimary(init) + tail;
      calc {
        NonPrimary(xs + ys);
        NonPrimary(xs + init) + tail;
        { NonPrimaryConcat(xs, init); }
        (NonPrimary(xs) + NonPrimary(init)) + tail;
        NonPrimary(xs) + (NonPrimary(init) + tail);
      }
    }
  }

  /** A contact is kept exactly when it is not primary. */
  lemma NonPrimarySingle(c: EmergencyContact)
    ensures NonPrimary([c]) == if c.isPrimary then [] else [c]
  {
    assert [c][..0] == [];
  }

  /** `get_primary_contact`: the first contact marked primary, None when there is none. */
  function GetPrimaryContact(record: ElderlyRecord): (r: Option<EmergencyContact>)
    ensures r.None? <==> forall i :: 0 <= i < |record.emergencyContacts| ==> !record.emergencyContacts[i].isPrimary
    ensures r.Some? ==> exists i :: FirstPrimaryAt(record.emergencyContacts, i) && record.emergencyContacts[i] == r.value
  {
    FirstPrimary(record.emergencyContacts)
  }

  /** Position i holds the first primary contact. */
  predicate FirstPrimaryAt(contacts: seq<EmergencyContact>, i: int)
  {
    0 <= i < |contacts| && contacts[i].isPrimary && forall j :: 0 <= j < i ==> !contacts[j].isPrimary
  }

  function FirstPrimary(contacts: seq<EmergencyContact>): (r: Option<EmergencyContact>)
    ensures r.None? <==> forall i :: 0 <= i < |contacts| ==> !contacts[i].isPrimary
    ensures r.Some? ==> exists i :: FirstPrimaryAt(contacts, i) && contacts[i] == r.value
  {
    if contacts == [] then None
    else if contacts[0].isPrimary then
      assert FirstPrimaryAt(contacts, 0);
      Some(contacts[0])
    else
      var r := FirstPrimary(contacts[1..]);
      if r.Some? then
        var i :| FirstPrimaryAt(contacts[1..], i) && contacts[1..][i] == r.value;
        assert FirstPrimaryAt(contacts, i + 1) by {
          forall j | 0 <= j < i + 1 ensures !contacts[j].isPrimary {
            if j > 0 {
              assert contacts[j] == contacts[1..][j - 1];
            }
          }
        }
        assert contacts[i + 1] == r.value;
        r
      else
        assert forall i :: 1 <= i < |contacts| ==> contacts[i] == contacts[1..][i - 1];
        r
  }

  // =====================================================================
  // Messages

  /** `_simulate_communication_success`'s success rates. */
  function SuccessRate(deliveryMethod: string): (rate: real)
    ensures deliveryMethod == "CALL" ==> rate == 0.85
    ensures deliveryMethod == "SMS" ==> rate == 0.95
    ensures deliveryMethod == "EMAIL" ==> rate == 0.98
    ensures deliveryMethod == "VISIT" ==> rate == 1.0
    ensures deliveryMethod !in ["CALL", "SMS", "EMAIL", "VISIT"] ==> rate == 0.9
    ensures 0.85 <= rate <= 1.0
  {
    if deliveryMethod == "CALL" then 0.85
    else if deliveryMethod == "SMS" then 0.95
    else if deliveryMethod == "EMAIL" then 0.98
    else if deliveryMethod == "VISIT" then 1.0
    else 0.9
  }

  /** The text of an emergency alert: a fall or abnormal vitals add advice. */
  function EmergencyMessage(patientId: string, alert: LegacyAlert): (m: string)
    ensures alert.alertType == "FALL" ==>
      m == "EMERGENCY ALERT for " + patientId + ": " + alert.message + " Please check on them immediately."
    ensures alert.alertType == "VITALS_ANOMALY" ==>
      m == "EMERGENCY ALERT for " + patientId + ": " + alert.message + " Vital signs are abnormal."
    ensures alert.alertType != "FALL" && alert.alertType != "VITALS_ANOMALY" ==>
      m == "EMERGENCY ALERT for " + patientId + ": " + alert.message
  {
    "EMERGENCY ALERT for " + patientId + ": " + alert.message + Advice(alert.alertType)
  }

  /** The advice appended for a fall or for abnormal vitals. */
  function Advice(alertType: string): string
  {
    if alertType == "FALL" then " Please check on them immediately."
    else if alertType == "VITALS_ANOMALY" then " Vital signs are abnormal."
    else ""
  }

  /** The communication `send_emergency_alert` records, drawing the k-th random number. */
  function EmergencyCommunication(env: Env, k: nat, patientId: string, contact: EmergencyContact, alert: LegacyAlert,
                                  deliveryMethod: string): (c: FamilyCommunication)
    ensures c.patientId == patientId && c.contactId == contact.contactId && c.timestamp == env.now
    ensures c.communicationType == deliveryMethod && c.alertId == alert.alertId
    ensures c.successful <==> env.random(k) < SuccessRate(deliveryMethod)
    ensures c.message == EmergencyMessage(patientId, alert)
  {
    FamilyCommunication(patientId, contact.contactId, env.now, deliveryMethod, EmergencyMessage(patientId, alert),
                        env.random(k) < SuccessRate(deliveryMethod), alert.alertId)
  }

  /** The text of a daily update: "all normal" exactly when the summary holds no alert. */
  function DailyUpdateMessage(patientId: string, summary: CareSummary): (m: string)
    ensures m == "Daily Update for " + patientId + ": All systems normal. No alerts today." <==> summary.alerts == []
    ensures summary.alerts != [] ==>
      m == "Daily Update for " + patientId + ": " + NatToString(|summary.alerts|) + " alerts generated today. Please review."
  {
    if |summary.alerts| == 0 then "Daily Update for " + patientId + ": All systems normal. No alerts today."
    else
      var m := "Daily Update for " + patientId + ": " + NatToString(|summary.alerts|) + " alerts generated today. Please review.";
      assert m[|"Daily Update for " + patientId + ": "|] != 'A';
      m
  }

  /** The communication `send_daily_update` records: an e-mail not tied to any alert. */
  function DailyUpdate(env: Env, k: nat, patientId: string, contact: EmergencyContact, summary: CareSummary)
    : (c: FamilyCommunication)
    ensures c.patientId == patientId && c.contactId == contact.contactId && c.timestamp == env.now
    ensures c.communicationType == "EMAIL" && c.alertId == "" && c.message == DailyUpdateMessage(patientId, summary)
    ensures c.successful <==> env.random(k) < 0.98
  {
    FamilyCommunication(patientId, contact.contactId, env.now, "EMAIL", DailyUpdateMessage(patientId, summary),
                        env.random(k) < SuccessRate("EMAIL"), "")
  }

  /** The communication `schedule_wellness_check` records: a call dated at the check time. */
  function WellnessCheck(libs: Libs, env: Env, k: nat, patientId: string, contact: EmergencyContact,
                         checkTime: Timestamp): (c: FamilyCommunication)
    ensures c.patientId == patientId && c.contactId == contact.contactId && c.timestamp == checkTime
    ensures c.communicationType == "CALL" && c.alertId == ""
    ensures c.message == "Wellness check scheduled for " + patientId + " at " + libs.formatMinute(checkTime)
    ensures c.successful <==> env.random(k) < 0.85
  {
    FamilyCommunication(patientId, contact.contactId, checkTime, "CALL",
                        "Wellness check scheduled for " + patientId + " at " + libs.formatMinute(checkTime),
                        env.random(k) < SuccessRate("CALL"), "")
  }

  // =====================================================================
  // Escalation rules

  /** `_should_notify_family`: a fall or abnormal vitals with a score of at least 0.7. */
  predicate ShouldNotifyFamily(alert: LegacyAlert): (b: bool)
    ensures b ==> alert.score >= 0.7
    ensures alert.alertType != "FALL" && alert.alertType != "VITALS_ANOMALY" ==> !b
    ensures (alert.alertType == "FALL" || alert.alertType == "VITALS_ANOMALY") && alert.score >= 0.7 ==> b
  {
    alert.alertType in ["FALL", "VITALS_ANOMALY"] && alert.score >= 0.7
  }

  /** The service and the adapter apply the same escalation rule. */
  lemma SameRuleAsAdapter(alert: LegacyAlert)
    ensures ShouldNotifyFamily(alert) <==> Adapter.ShouldNotifyEmergencyContacts(alert)
  {
  }

  /** `_get_preferred_delivery_method`: a call for a fall, a text for vitals, e-mail otherwise. */
  function PreferredDeliveryMethod(alert: LegacyAlert): (m: string)
    ensures alert.alertType == "FALL" ==> m == "CALL"
    ensures alert.alertType == "VITALS_ANOMALY" ==> m == "SMS"
    ensures alert.alertType != "FALL" && alert.alertType != "VITALS_ANOMALY" ==> m == "EMAIL"
  {
    if alert.alertType == "FALL" then "CALL"
    else if alert.alertType == "VITALS_ANOMALY" then "SMS"
    else "EMAIL"
  }

  /**
   * The texts sent to the non-primary contacts of `contacts` for an urgent
   * alert, in order, the first drawing the k-th random number.
   */
  function EscalationComms(env: Env, k: nat, patientId: string, alert: LegacyAlert, contacts: seq<EmergencyContact>)
    : (r: seq<FamilyCommunication>)
  {
    if contacts == [] then []
    else
      var prev := EscalationComms(env, k, patientId, alert, contacts[..|contacts| - 1]);
      var last := contacts[|contacts| - 1];
      prev + (if !last.isPrimary then [EmergencyCommunication(env, k + |prev|, patientId, last, alert, "SMS")] else [])
  }

  /** `r` is one text per contact of `cs`, in order, about the alert `alertId`. */
  predicate TextsTo(r: seq<FamilyCommunication>, cs: seq<EmergencyContact>, alertId: string)
  {
    && |r| == |cs|
    && forall i :: 0 <= i < |r| ==>
      r[i].contactId == cs[i].contactId && r[i].communicationType == "SMS" && r[i].alertId == alertId
  }

  lemma TextsToConcat(r: seq<FamilyCommunication>, cs: seq<EmergencyContact>, q: seq<FamilyCommunication>,
                      ds: seq<EmergencyContact>, alertId: string)
    requires TextsTo(r, cs, alertId) && TextsTo(q, ds, alertId)
    ensures TextsTo(r + q, cs + ds, alertId)
  {
    forall i | 0 <= i < |r + q|
      ensures (r + q)[i].contactId == (cs + ds)[i].contactId
      ensures (r + q)[i].communicationType == "SMS" && (r + q)[i].alertId == alertId
    {
      if i < |r| {
        assert (r + q)[i] == r[i] && (cs + ds)[i] == cs[i];
      } else {
        assert (r + q)[i] == q[i - |r|] && (cs + ds)[i] == ds[i - |r|];
      }
    }
  }

  /** Escalation sends exactly one text to each non-primary contact, in order. */
  lemma {:induction false} EscalationReachesNonPrimary(env: Env, k: nat, patientId: string, alert: LegacyAlert,
                                                       contacts: seq<EmergencyContact>)
    ensures TextsTo(EscalationComms(env, k, patientId, alert, contacts), NonPrimary(contacts), alert.alertId)
  {
    if contacts != [] {
      var init := contacts[..|contacts| - 1];
      var last := contacts[|contacts| - 1];
      EscalationReachesNonPrimary(env, k, patientId, alert, init);
      var prev := EscalationComms(env, k, patientId, alert, init);
      var sent: seq<FamilyCommunication> :=
        if !last.isPrimary then [EmergencyCommunication(env, k + |prev|, patientId, last, alert, "SMS")] else [];
      var reached: seq<EmergencyContact> := if !last.isPrimary then [last] else [];
      assert TextsTo(sent, reached, alert.alertId);
      TextsToConcat(prev, NonPrimary(init), sent, reached, alert.alertId);
      assert EscalationComms(env, k, patientId, alert, contacts) == prev + sent;
      assert NonPrimary(contacts) == NonPrimary(init) + reached;
    }
  }

  /**
   * Every escalation text is about the patient and the alert, carries the
   * emergency message, and the i-th of them succeeds by the (k + i)-th random
   * number at the SMS rate.
   */
  lemma {:induction false} EscalationTexts(env: Env, k: nat, patientId: string, alert: LegacyAlert,
                                           contacts: seq<EmergencyContact>)
    ensures forall i :: 0 <= i < |EscalationComms(env, k, patientId, alert, contacts)| ==>
      var c := EscalationComms(env, k, patientId, alert, contacts)[i];
      && c.patientId == patientId && c.alertId == alert.alertId && c.communicationType == "SMS"
      && c.message == EmergencyMessage(patientId, alert)
      && (c.successful <==> env.random(k + i) < 0.95)
  {
    if contacts != [] {
      var init, last := contacts[..|contacts| - 1], contacts[|contacts| - 1];
      EscalationTexts(env, k, patientId, alert, init);
      var prev := EscalationComms(env, k, patientId, alert, init);
      var sent: seq<FamilyCommunication> :=
        if !last.isPrimary then [EmergencyCommunication(env, k + |prev|, patientId, last, alert, "SMS")] else [];
      var r := EscalationComms(env, k, patientId, alert, contacts);
      assert r == prev + sent;
      forall i | 0 <= i < |r|
        ensures && r[i].patientId == patientId && r[i].alertId == alert.alertId && r[i].communicationType == "SMS"
                && r[i].message == EmergencyMessage(patientId, alert)
                && (r[i].successful <==> env.random(k + i) < 0.95)
      {
        if i < |prev| {
          assert r[i] == prev[i];
        } else {
          assert i == |prev| && r[i] == sent[0];
          assert SuccessRate("SMS") == 0.95;
        }
      }
    }
  }

  /** The primary-contact part of an alert's handling: the alert's own preferred method. */
  function PrimaryComms(env: Env, k: nat, record: ElderlyRecord, alert: LegacyAlert): (r: seq<FamilyCommunication>)
    ensures |r| == (if GetPrimaryContact(record).Some? then 1 else 0)
    ensures |r| == 1 ==> r[0].contactId == GetPrimaryContact(record).value.contactId
    ensures |r| == 1 ==> r[0].communicationType == PreferredDeliveryMethod(alert)
  {
    match GetPrimaryContact(record)
    case Some(c) => [EmergencyCommunication(env, k, record.patientId, c, alert, PreferredDeliveryMethod(alert))]
    case None => []
  }

  /**
   * The communications for one alert, the first drawing the k-th random
   * number: none unless the family should be notified; otherwise the primary
   * contact first, then, when the score is at least 0.9, a text to every
   * other emergency contact.
   */
  function AlertComms(env: Env, k: nat, record: ElderlyRecord, alert: LegacyAlert,
                      emergency: seq<EmergencyContact>): (r: seq<FamilyCommunication>)
    ensures !ShouldNotifyFamily(alert) ==> r == []
    ensures ShouldNotifyFamily(alert) ==> PrimaryComms(env, k, record, alert) <= r
    ensures ShouldNotifyFamily(alert) && alert.score < 0.9 ==> r == PrimaryComms(env, k, record, alert)
    ensures forall i :: 0 <= i < |r| ==> r[i].patientId == record.patientId && r[i].alertId == alert.alertId
  {
    if !ShouldNotifyFamily(alert) then []
    else
      var primary := PrimaryComms(env, k, record, alert);
      EscalationTexts(env, k + |primary|, record.patientId, alert, emergency);
      primary + (if alert.score >= 0.9 then EscalationComms(env, k + |primary|, record.patientId, alert, emergency) else [])
  }

  /** An urgent notify-worthy alert reaches the primary contact first, then the other contacts. */
  lemma UrgentAlertComms(env: Env, k: nat, record: ElderlyRecord, alert: LegacyAlert, emergency: seq<EmergencyContact>,
                         offset: nat)
    requires ShouldNotifyFamily(alert) && alert.score >= 0.9
    requires offset == k + |PrimaryComms(env, k, record, alert)|
    ensures AlertComms(env, k, record, alert, emergency) ==
      PrimaryComms(env, k, record, alert) + EscalationComms(env, offset, record.patientId, alert, emergency)
  {
  }

  /** What `process_alerts_for_family_notification` returns: each alert's communications in turn. */
  function AllAlertComms(env: Env, record: ElderlyRecord, alerts: seq<LegacyAlert>, emergency: seq<EmergencyContact>)
    : (r: seq<FamilyCommunication>)
    ensures forall i :: 0 <= i < |r| ==> r[i].patientId == record.patientId
  {
    if alerts == [] then []
    else
      var prev := AllAlertComms(env, record, alerts[..|alerts| - 1], emergency);
      prev + AlertComms(env, |prev|, record, alerts[|alerts| - 1], emergency)
  }

  /** One more alert appends its communications, numbered after those already sent. */
  lemma AllAlertCommsSnoc(env: Env, record: ElderlyRecord, alerts: seq<LegacyAlert>, i: nat,
                          emergency: seq<EmergencyContact>)
    requires i < |alerts|
    ensures AllAlertComms(env, record, alerts[..i + 1], emergency) ==
            AllAlertComms(env, record, alerts[..i], emergency) +
            AlertComms(env, |AllAlertComms(env, record, alerts[..i], emergency)|, record, alerts[i], emergency)
  {
    assert alerts[..i + 1][..i] == alerts[..i];
  }

  /**
   * How many communications an alert gives: for a notify-worthy alert, one
   * to the primary contact if there is one, and, when the score is at least
   * 0.9, one to each non-primary emergency contact.
   */
  lemma AlertCommsCount(env: Env, k: nat, record: ElderlyRecord, alert: LegacyAlert, emergency: seq<EmergencyContact>)
    ensures |AlertComms(env, k, record, alert, emergency)| ==
      if !ShouldNotifyFamily(alert) then 0
      else (if GetPrimaryContact(record).Some? then 1 else 0) +
           (if alert.score >= 0.9 then |NonPrimary(emergency)| else 0)
  {
    var primary := PrimaryComms(env, k, record, alert);
    EscalationReachesNonPrimary(env, k + |primary|, record.patientId, alert, emergency);
  }

  /** An alert the family need not hear about, such as the plugin's "FALL_DETECTED", gives no communication. */
  lemma QuietAlertsSendNothing(env: Env, record: ElderlyRecord, alerts: seq<LegacyAlert>, emergency: seq<EmergencyContact>)
    requires forall i :: 0 <= i < |alerts| ==> !ShouldNotifyFamily(alerts[i])
    ensures AllAlertComms(env, record, alerts, emergency) == []
  {
    if alerts != [] {
      QuietAlertsSendNothing(env, record, alerts[..|alerts| - 1], emergency);
    }
  }

  // =====================================================================
  // The service

  class FamilyService {
    /** Every communication the service has sent, oldest first. */
    var communicationLog: seq<FamilyCommunication>

    constructor()
      ensures communicationLog == []
    {
      communicationLog := [];
    }

    /** `send_emergency_alert`: the communication is recorded and returned. */
    method SendEmergencyAlert(env: Env, k: nat, patientId: string, contact: EmergencyContact, alert: LegacyAlert,
                              deliveryMethod: string) returns (comm: FamilyCommunication)
      modifies this
      ensures comm == EmergencyCommunication(env, k, patientId, contact, alert, deliveryMethod)
      ensures communicationLog == old(communicationLog) + [comm]
    {
      comm := EmergencyCommunication(env, k, patientId, contact, alert, deliveryMethod);
      communicationLog := communicationLog + [comm];
    }

    /** `send_daily_update`: the communication is recorded and returned. */
    method SendDailyUpdate(env: Env, k: nat, patientId: string, contact: EmergencyContact, summary: CareSummary)
      returns (comm: FamilyCommunication)
      modifies this
      ensures comm == DailyUpdate(env, k, patientId, contact, summary)
      ensures communicationLog == old(communicationLog) + [comm]
    {
      comm := DailyUpdate(env, k, patientId, contact, summary);
      communicationLog := communicationLog + [comm];
    }

    /** `schedule_wellness_check`: the communication is recorded and returned. */
    method ScheduleWellnessCheck(libs: Libs, env: Env, k: nat, patientId: string, contact: EmergencyContact,
                                 checkTime: Timestamp) returns (comm: FamilyCommunication)
      modifies this
      ensures comm == WellnessCheck(libs, env, k, patientId, contact, checkTime)
      ensures communicationLog == old(communicationLog) + [comm]
    {
      comm := WellnessCheck(libs, env, k, patientId, contact, checkTime);
      communicationLog := communicationLog + [comm];
    }

    /** The texts to the non-primary contacts, as the inner loop of `process_alerts_for_family_notification` sends them. */
    method Escalate(env: Env, k: nat, patientId: string, alert: LegacyAlert, emergency: seq<EmergencyContact>)
      returns (sent: seq<FamilyCommunication>)
      modifies this
      ensures sent == EscalationComms(env, k, patientId, alert, emergency)
      ensures communicationLog == old(communicationLog) + sent
    {
      sent := [];
      var j := 0;
      while j < |emergency|
        invariant 0 <= j <= |emergency|
        invariant sent == EscalationComms(env, k, patientId, alert, emergency[..j])
        invariant communicationLog == old(communicationLog) + sent
      {
        assert emergency[..j + 1][..j] == emergency[..j];
        var contact := emergency[j];
        ghost var next := EscalationComms(env, k, patientId, alert, emergency[..j + 1]);
        if !contact.isPrimary {
          var comm := SendEmergencyAlert(env, k + |sent|, patientId, contact, alert, "SMS");
          assert next == sent + [comm];
          AppendAssoc(old(communicationLog), sent, [comm]);
          sent := sent + [comm];
        } else {
          assert next == sent + [];
        }
        j := j + 1;
      }
      assert emergency[..j] == emergency;
    }

    /** The primary contact, if any, is alerted by the alert's preferred method. */
    method NotifyPrimary(env: Env, k: nat, record: ElderlyRecord, alert: LegacyAlert)
      returns (sent: seq<FamilyCommunication>)
      modifies this
      ensures sent == PrimaryComms(env, k, record, alert)
      ensures communicationLog == old(communicationLog) + sent
    {
      sent := [];
      var primary := GetPrimaryContact(record);
      if primary.Some? {
        var comm := SendEmergencyAlert(env, k, record.patientId, primary.value, alert, PreferredDeliveryMethod(alert));
        sent := [comm];
      }
    }

    /** One turn of the loop of `process_alerts_for_family_notification`. */
    method NotifyFamily(env: Env, k: nat, record: ElderlyRecord, alert: LegacyAlert, emergency: seq<EmergencyContact>)
      returns (sent: seq<FamilyCommunication>)
      modifies this
      ensures sent == AlertComms(env, k, record, alert, emergency)
      ensures communicationLog == old(communicationLog) + sent
    {
      if !ShouldNotifyFamily(alert) {
        sent := [];
        return;
      }
      var primary := NotifyPrimary(env, k, record, alert);
      if alert.score >= 0.9 {
        var offset := k + |primary|;
        var more := Escalate(env, offset, record.patientId, alert, emergency);
        AppendAssoc(old(communicationLog), primary, more);
        sent := primary + more;
        UrgentAlertComms(env, k, record, alert, emergency, offset);
      } else {
        sent := primary;
      }
    }

    /**
     * `process_alerts_for_family_notification`: the communications returned
     * are exactly those appended to the log during the call, the n-th of
     * them drawing the n-th random number.
     */
    method ProcessAlertsForFamilyNotification(env: Env, record: ElderlyRecord, alerts: seq<LegacyAlert>)
      returns (communications: seq<FamilyCommunication>)
      modifies this
      ensures communications == AllAlertComms(env, record, alerts, GetEmergencyContacts(record, true))
      ensures communicationLog == old(communicationLog) + communications
    {
      communications := [];
      var emergency := GetEmergencyContacts(record, true);
      var i := 0;
      while i < |alerts|
        invariant 0 <= i <= |alerts|
        invariant communications == AllAlertComms(env, record, alerts[..i], emergency)
        invariant communicationLog == old(communicationLog) + communications
      {
        AllAlertCommsSnoc(env, record, alerts, i, emergency);
        var sent := NotifyFamily(env, |communications|, record, alerts[i], emergency);
        AppendAssoc(old(communicationLog), communications, sent);
        communications := communications + sent;
        i := i + 1;
      }
      assert alerts[..i] == alerts;
    }
  }
}
