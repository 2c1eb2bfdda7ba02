// The elderly-care plugin of app/plugins/elderly_service.py: packet parsing
// for the protobuf, JSON, XML and CSV formats, the health alert rules, the
// fan-out of an alert to every contact of every affected patient, and the
// care summary.

module ElderlyService {
  import opened PyRuntime
  import opened Messages
  import opened Externals
  import opened Serializer
  import opened Registry

  const AppId: string := "elderly_care"
  const AppName: string := "Elderly Care Monitoring"
  const SupportedDataTypes: seq<string> := ["sensor_reading", "medication_event", "emergency_contact",
    "family_communication", "vitals_json", "patient_data_xml", "sensor_csv"]

  // =====================================================================
  // parse_data_packet

  /** `_parse_vitals_json`: `.get` on anything but a dict raises AttributeError. */
  function ParseVitalsJson(libs: Libs, env: Env, data: Value): (r: Result<Value>)
    ensures r.Ok? <==> data.VDict?
    ensures r.Ok? ==> (
      && r.value.VDict?
      && Lookup(r.value.entries, "type") == Some(VStr("vitals_json"))
      && Lookup(r.value.entries, "raw_data") == Some(data))
  {
    match data
    case VDict(d) =>
      var r := [
        Entry("type", VStr("vitals_json")),
        Entry("patient_id", Get(d, "patient_id", VStr("unknown"))),
        Entry("timestamp", Get(d, "timestamp", VStr(libs.isoFormat(env.now)))),
        Entry("heart_rate", Get(d, "heart_rate", VInt(0))),
        Entry("spo2", Get(d, "spo2", VInt(0))),
        Entry("temperature", Get(d, "temperature", VInt(0))),
        Entry("blood_pressure", Get(d, "blood_pressure", VDict([]))),
        Entry("device_info", Get(d, "device_info", VDict([]))),
        Entry("raw_data", data)];
      LookupFirst(r, 0); LookupFirst(r, 8);
      Ok(VDict(r))
    case _ => Raised("AttributeError")
  }

  /** `_parse_patient_xml`: a string is first converted by `_xml_to_dict`. */
  function ParsePatientXml(libs: Libs, data: Value): (r: Result<Value>)
    ensures data.VDict? ==> (
      && r.Ok? && r.value.VDict?
      && Lookup(r.value.entries, "type") == Some(VStr("patient_xml"))
      && Lookup(r.value.entries, "medical_history") == Some(Get(data.entries, "medical_history", VDict([]))))
    ensures !data.VStr? && !data.VDict? ==> r == Raised("AttributeError")
    ensures data.VStr? && XmlToDict(libs, data.s).Raised? ==> r == Raised(XmlToDict(libs, data.s).error)
    ensures data.VStr? && XmlToDict(libs, data.s).Ok? ==>
      var x := XmlToDict(libs, data.s).value;
      && (x.VStr? ==> r == Raised("AttributeError"))
      && (x.VDict? ==> (
        && r.Ok? && r.value.VDict?
        && Lookup(r.value.entries, "type") == Some(VStr("patient_xml"))
        && Lookup(r.value.entries, "medical_history") == Some(Get(x.entries, "medical_history", VDict([])))))
  {
    var converted := if data.VStr? then XmlToDict(libs, data.s) else Ok(data);
    match converted
    case Raised(e) => Raised(e)
    case Ok(VDict(d)) => Ok(VDict(PatientRecord(d)))
    case Ok(_) => Raised("AttributeError")
  }

  /** The record `_parse_patient_xml` builds from the patient dict. */
  function PatientRecord(d: seq<Entry>): (r: seq<Entry>)
    ensures Lookup(r, "type") == Some(VStr("patient_xml"))
    ensures Lookup(r, "medical_history") == Some(Get(d, "medical_history", VDict([])))
  {
    var r := [
      Entry("type", VStr("patient_xml")),
      Entry("patient_id", Get(d, "patient_id", VStr("unknown"))),
      Entry("patient_info", Get(d, "patient_info", VDict([]))),
      Entry("medical_history", Get(d, "medical_history", VDict([]))),
      Entry("current_medications", Get(d, "medications", VList([]))),
      Entry("raw_data", VDict(d))];
    LookupFirst(r, 0); LookupFirst(r, 3);
    r
  }

  /** `_parse_sensor_csv`: a string is first converted by `_csv_to_list`; it never raises. */
  function ParseSensorCsv(libs: Libs, data: Value): (r: Value)
    ensures r.VDict? && Lookup(r.entries, "type") == Some(VStr("sensor_csv"))
    ensures Lookup(r.entries, "readings") == Some(if data.VStr? then CsvToList(libs, data.s) else data)
  {
    var rows := if data.VStr? then CsvToList(libs, data.s) else data;
    VDict([
      Entry("type", VStr("sensor_csv")),
      Entry("readings", rows),
      Entry("count", VInt(if rows.VList? then |rows.items| else 1)),
      Entry("raw_data", rows)])
  }

  function ResultValue(r: Result<Value>): (p: Parsed)
    ensures r.Ok? ==> p == PyValue(r.value)
    ensures r.Raised? ==> p.IsNone()
  {
    match r
    case Ok(v) => PyValue(v)
    case Raised(_) => PyValue(VNone)
  }

  /** A protobuf payload decoded as a message of the named type; None when the decoder raises. */
  function DecodeMessage(libs: Libs, typeName: string, payload: bytes): (r: Parsed)
    ensures r == PMessage(typeName) <==> libs.decodes(typeName, payload)
    ensures !libs.decodes(typeName, payload) ==> r.IsNone()
  {
    if libs.decodes(typeName, payload) then PMessage(typeName) else PyValue(VNone)
  }

  /** The structured data types, read through `extract_packet_data(packet, "auto")`. */
  function ParseStructured(libs: Libs, env: Env, p: DataPacket): (r: Parsed)
    requires p.dataType in ["vitals_json", "patient_data_xml", "sensor_csv"]
    ensures ExtractPacketData(libs, p, "auto").Raised? ==> r.IsNone()
    ensures p.dataType == "vitals_json" && ExtractPacketData(libs, p, "auto").Ok? ==>
      var x := ExtractPacketData(libs, p, "auto").value;
      && (r.IsNone() <==> !x.VDict?)
      && (x.VDict? ==> r == PyValue(ParseVitalsJson(libs, env, x).value))
    ensures p.dataType == "patient_data_xml" && ExtractPacketData(libs, p, "auto").Ok? ==>
      var x := ExtractPacketData(libs, p, "auto").value;
      && (ParsePatientXml(libs, x).Ok? ==> r == PyValue(ParsePatientXml(libs, x).value))
      && (ParsePatientXml(libs, x).Raised? ==> r.IsNone())
    ensures p.dataType == "sensor_csv" && ExtractPacketData(libs, p, "auto").Ok? ==>
      r == PyValue(ParseSensorCsv(libs, ExtractPacketData(libs, p, "auto").value))
  {
    match ExtractPacketData(libs, p, "auto")
    case Raised(_) => PyValue(VNone)
    case Ok(extracted) =>
      if p.dataType == "vitals_json" then ResultValue(ParseVitalsJson(libs, env, extracted))
      else if p.dataType == "patient_data_xml" then ResultValue(ParsePatientXml(libs, extracted))
      else PyValue(ParseSensorCsv(libs, extracted))
  }

  /** A protobuf payload, decoded by the message type its data type names. */
  function ParsePayload(libs: Libs, dataType: string, payload: bytes): (r: Parsed)
    ensures dataType == "sensor_reading" ==>
      && (libs.decodeSensorReading(payload).Some? ==> r == PSensorReading(libs.decodeSensorReading(payload).value))
      && (libs.decodeSensorReading(payload).None? ==> r.IsNone())
    ensures dataType == "medication_event" ==>
      && (libs.decodeMedicationEvent(payload).Some? ==> r == PMedicationEvent(libs.decodeMedicationEvent(payload).value))
      && (libs.decodeMedicationEvent(payload).None? ==> r.IsNone())
    ensures dataType == "emergency_contact" ==>
      (r == PMessage("EmergencyContact") <==> libs.decodes("EmergencyContact", payload)) &&
      (!libs.decodes("EmergencyContact", payload) ==> r.IsNone())
    ensures dataType == "family_communication" ==>
      (r == PMessage("FamilyCommunication") <==> libs.decodes("FamilyCommunication", payload)) &&
      (!libs.decodes("FamilyCommunication", payload) ==> r.IsNone())
    ensures dataType !in ["sensor_reading", "medication_event", "emergency_contact", "family_communication"] ==>
      r.IsNone()
  {
    if dataType == "sensor_reading" then
      (match libs.decodeSensorReading(payload)
       case Some(s) => PSensorReading(s)
       case None => PyValue(VNone))
    else if dataType == "medication_event" then
      (match libs.decodeMedicationEvent(payload)
       case Some(m) => PMedicationEvent(m)
       case None => PyValue(VNone))
    else if dataType == "emergency_contact" then DecodeMessage(libs, "EmergencyContact", payload)
    else if dataType == "family_communication" then DecodeMessage(libs, "FamilyCommunication", payload)
    else PyValue(VNone)
  }

  /** The content fields of a packet with no payload: JSON text, XML text, plain text. */
  function ParseContent(libs: Libs, p: DataPacket): (r: Parsed)
    ensures p.jsonData.Some? ==>
      && (libs.jsonLoads(p.jsonData.value).Some? ==> r == PyValue(libs.jsonLoads(p.jsonData.value).value))
      && (libs.jsonLoads(p.jsonData.value).None? ==> r.IsNone())
    ensures p.jsonData.None? && p.xmlData.Some? ==>
      && (XmlToDict(libs, p.xmlData.value).Ok? ==> r == PyValue(XmlToDict(libs, p.xmlData.value).value))
      && (XmlToDict(libs, p.xmlData.value).Raised? ==> r.IsNone())
    ensures p.jsonData.None? && p.xmlData.None? && p.textData.Some? ==>
      && r.PyValue? && r.v.VDict?
      && Lookup(r.v.entries, "text_content") == Some(VStr(p.textData.value))
      && Lookup(r.v.entries, "data_type") == Some(VStr(p.dataType))
    ensures p.jsonData.None? && p.xmlData.None? && p.textData.None? ==> r.IsNone()
  {
    if p.jsonData.Some? then
      (match libs.jsonLoads(p.jsonData.value) case Some(v) => PyValue(v) case None => PyValue(VNone))
    else if p.xmlData.Some? then ResultValue(XmlToDict(libs, p.xmlData.value))
    else if p.textData.Some? then
      PyValue(VDict([Entry("text_content", VStr(p.textData.value)), Entry("data_type", VStr(p.dataType))]))
    else PyValue(VNone)
  }

  /**
   * `parse_data_packet`.  Every exception is caught and becomes None; a
   * payload of an unknown data type also gives None, by falling off the end.
   * The structured data types are read first, then a payload, then the
   * content fields in the order json_data, xml_data, text_data.
   */
  function ParsePacket(libs: Libs, env: Env, p: DataPacket): (r: Parsed)
    ensures p.dataType in ["vitals_json", "patient_data_xml", "sensor_csv"] ==> r == ParseStructured(libs, env, p)
    ensures p.dataType !in ["vitals_json", "patient_data_xml", "sensor_csv"] && p.payload.Some? ==>
      r == ParsePayload(libs, p.dataType, p.payload.value)
    ensures p.dataType !in ["vitals_json", "patient_data_xml", "sensor_csv"] && p.payload.None? ==>
      r == ParseContent(libs, p)
  {
    if p.dataType in ["vitals_json", "patient_data_xml", "sensor_csv"] then ParseStructured(libs, env, p)
    else if p.payload.Some? then ParsePayload(libs, p.dataType, p.payload.value)
    else ParseContent(libs, p)
  }

  /**
   * A "vitals_json" packet carrying its JSON in `json_data` never parses:
   * `extract_packet_data(packet, "auto")` hands back the JSON text, and
   * `_parse_vitals_json` calls `.get` on that string.
   */
  lemma JsonVitalsPacketIsNone(libs: Libs, env: Env, p: DataPacket)
    requires p.dataType == "vitals_json" && p.jsonData.Some?
    ensures ParsePacket(libs, env, p).IsNone()
  {
    assert ExtractPacketData(libs, p, "auto") == Ok(VStr(p.jsonData.value));
  }

  /** A "vitals_json" packet whose generic data holds a JSON object parses to a vitals record. */
  lemma GenericVitalsPacketParses(libs: Libs, env: Env, p: DataPacket, d: seq<Entry>)
    requires p.dataType == "vitals_json"
    requires p.jsonData.None? && p.xmlData.None? && p.textData.None? && p.genericData.Some?
    requires p.genericData.value.format == JSON
    requires LoadOrText(libs, p.genericData.value.rawData, libs.jsonLoads) == Ok(VDict(d))
    ensures var r := ParsePacket(libs, env, p);
      r.PyValue? && r.v.VDict? && Lookup(r.v.entries, "type") == Some(VStr("vitals_json")) &&
      Lookup(r.v.entries, "raw_data") == Some(VDict(d))
  {
    assert ExtractPacketData(libs, p, "auto") == Ok(VDict(d));
  }

  // =====================================================================
  // generate_alerts

  /** `thresholds.get(key, default)` */
  function ThresholdGet(thresholds: map<string, real>, key: string, default: real): real
  {
    if key in thresholds then thresholds[key] else default
  }

  /** The heart-rate and SpO2 thresholds: 120 and 90 unless the configuration sets them. */
  function Thresholds(config: Option<ApplicationConfig>): (t: (real, real))
    ensures t.0 == (if config.Some? && "heart_rate_high" in config.value.thresholds
                    then config.value.thresholds["heart_rate_high"] else 120.0)
    ensures t.1 == (if config.Some? && "spo2_low" in config.value.thresholds
                    then config.value.thresholds["spo2_low"] else 90.0)
  {
    if config.Some? && |config.value.thresholds| != 0 then
      (ThresholdGet(config.value.thresholds, "heart_rate_high", 120.0),
       ThresholdGet(config.value.thresholds, "spo2_low", 90.0))
    else (120.0, 90.0)
  }

  /** The vitals rule: abnormal when the heart rate is above or the SpO2 below its threshold. */
  predicate VitalsAbnormal(hr: real, spo2: real, hrT: real, spo2T: real)
  {
    hr > hrT || spo2 < spo2T
  }

  function VitalsSeverity(hr: real, spo2: real): string
  {
    if hr > 150.0 || spo2 < 85.0 then "critical" else "warning"
  }

  function SeverityScore(severity: string): real
  {
    if severity == "critical" then 0.9 else 0.7
  }

  /** The numeric value of a number, as Python's comparison operators see it. */
  function Num(v: Value): Option<real>
  {
    match v
    case VBool(b) => Some(if b then 1.0 else 0.0)
    case VInt(i) => Some(i as real)
    case VFloat(x) => Some(x)
    case _ => None
  }

  /** `v > t`: comparing a non-number with a float raises TypeError. */
  function Greater(v: Value, t: real): Result<bool>
  {
    match Num(v)
    case Some(x) => Ok(x > t)
    case None => Raised("TypeError")
  }

  /** `v < t` */
  function Less(v: Value, t: real): Result<bool>
  {
    match Num(v)
    case Some(x) => Ok(x < t)
    case None => Raised("TypeError")
  }

  /** `a or b`, where `b` is only evaluated when `a` is False. */
  function OrElse(a: Result<bool>, b: Result<bool>): Result<bool>
  {
    match a
    case Raised(e) => Raised(e)
    case Ok(x) => if x then Ok(true) else b
  }

  /** The vitals rule on JSON values, with Python's short-circuit and TypeError. */
  function JsonVitalsAbnormal(hr: Value, spo2: Value, hrT: real, spo2T: real): Result<bool>
  {
    OrElse(Greater(hr, hrT), Less(spo2, spo2T))
  }

  function JsonVitalsCritical(hr: Value, spo2: Value): Result<bool>
  {
    OrElse(Greater(hr, 150.0), Less(spo2, 85.0))
  }

  /** On numbers the JSON path applies the same rule and severity as the protobuf path. */
  lemma JsonVitalsAgree(hr: Value, spo2: Value, hrT: real, spo2T: real)
    requires Num(hr).Some? && Num(spo2).Some?
    ensures JsonVitalsAbnormal(hr, spo2, hrT, spo2T) == Ok(VitalsAbnormal(Num(hr).value, Num(spo2).value, hrT, spo2T))
    ensures JsonVitalsCritical(hr, spo2) == Ok(VitalsSeverity(Num(hr).value, Num(spo2).value) == "critical")
  {
  }

  /** `str(x)` of a float field of a protobuf message. */
  function F(libs: Libs, x: real): string
  {
    libs.formatNumber(x)
  }

  function FallAlert(libs: Libs, env: Env, k: nat, s: SensorReading): (r: Result<Alert>)
    ensures r.Ok? && r.value.alertType == "FALL_DETECTED" && r.value.severity == "emergency"
    ensures r.Ok? && r.value.score == 1.0 && r.value.affectedEntities == [s.patientId]
    ensures r.Ok? && r.value.message == "Fall detected for patient " + s.patientId
  {
    var data := VDict([Entry("device_id", VStr(s.deviceId)), Entry("timestamp", VStr(libs.isoFormat(s.timestamp)))]);
    assert JsonSerializable(data) by {
      forall i | 0 <= i < |data.entries| ensures JsonSerializable(data.entries[i].val) {
      }
    }
    AlertOf(libs, env, k, AppId, "FALL_DETECTED", "emergency", "Fall detected for patient " + s.patientId, 1.0,
            [Entry("device_id", VStr(s.deviceId))],
            data, JSON, [VStr(s.patientId)], "")
  }

  function VitalsAlert(libs: Libs, env: Env, k: nat, s: SensorReading): (r: Result<Alert>)
    ensures r.Ok? && r.value.alertType == "VITALS_ANOMALY" && r.value.affectedEntities == [s.patientId]
    ensures r.Ok? && r.value.severity == VitalsSeverity(s.vitals.heartRate, s.vitals.spo2)
    ensures r.Ok? && r.value.score == SeverityScore(r.value.severity)
    ensures r.Ok? && r.value.message ==
      "Abnormal vitals: HR=" + F(libs, s.vitals.heartRate) + ", SpO2=" + F(libs, s.vitals.spo2) + "%"
  {
    var v := s.vitals;
    var severity := VitalsSeverity(v.heartRate, v.spo2);
    var inner := VDict([Entry("heart_rate", VFloat(v.heartRate)), Entry("spo2", VFloat(v.spo2)),
                        Entry("temperature", VFloat(v.bodyTemp))]);
    var data := VDict([Entry("vitals", inner)]);
    assert JsonSerializable(inner) by {
      forall i | 0 <= i < |inner.entries| ensures JsonSerializable(inner.entries[i].val) {
      }
    }
    assert JsonSerializable(data) by {
      forall i | 0 <= i < |data.entries| ensures JsonSerializable(data.entries[i].val) {
        assert data.entries[i].val == inner;
      }
    }
    AlertOf(libs, env, k, AppId, "VITALS_ANOMALY", severity,
            "Abnormal vitals: HR=" + F(libs, v.heartRate) + ", SpO2=" + F(libs, v.spo2) + "%",
            SeverityScore(severity),
            [Entry("heart_rate", VStr(F(libs, v.heartRate))), Entry("spo2", VStr(F(libs, v.spo2)))],
            data, JSON, [VStr(s.patientId)], "")
  }

  /**
   * `_process_protobuf_sensor_data`: the fall alert first when a fall was
   * detected, then at most one vitals alert.
   */
  function SensorAlerts(libs: Libs, env: Env, s: SensorReading, hrT: real, spo2T: real): (r: Result<seq<Alert>>)
    ensures r.Ok?
    ensures |r.value| == (if s.fallDetected then 1 else 0) +
                         (if VitalsAbnormal(s.vitals.heartRate, s.vitals.spo2, hrT, spo2T) then 1 else 0)
    ensures s.fallDetected ==>
      && r.value[0].alertType == "FALL_DETECTED" && r.value[0].severity == "emergency"
      && r.value[0].score == 1.0 && r.value[0].affectedEntities == [s.patientId]
    ensures VitalsAbnormal(s.vitals.heartRate, s.vitals.spo2, hrT, spo2T) ==>
      var a := r.value[|r.value| - 1];
      && a.alertType == "VITALS_ANOMALY"
      && a.severity == VitalsSeverity(s.vitals.heartRate, s.vitals.spo2)
      && a.score == (if a.severity == "critical" then 0.9 else 0.7)
      && a.affectedEntities == [s.patientId]
  {
    var fall := if s.fallDetected then [FallAlert(libs, env, 0, s).value] else [];
    if VitalsAbnormal(s.vitals.heartRate, s.vitals.spo2, hrT, spo2T) then
      Ok(fall + [VitalsAlert(libs, env, |fall|, s).value])
    else Ok(fall)
  }

  /** `_process_protobuf_medication_data`: one alert exactly when the dose was not taken. */
  function MedicationAlerts(libs: Libs, env: Env, m: MedicationEvent): (r: Result<seq<Alert>>)
    ensures r.Ok? && |r.value| == (if m.taken then 0 else 1)
    ensures !m.taken ==>
      && r.value[0].alertType == "MEDICATION_MISSED" && r.value[0].severity == "warning"
      && r.value[0].score == 0.8 && r.value[0].affectedEntities == [m.patientId]
    ensures !m.taken ==> r.value[0].message == "Missed medication: " + m.medicationName
  {
    if m.taken then Ok([])
    else
      var data := VDict([Entry("medication", VStr(m.medicationName)),
                         Entry("scheduled_time", VStr(libs.isoFormat(m.scheduledTime)))]);
      assert JsonSerializable(data) by {
        forall i | 0 <= i < |data.entries| ensures JsonSerializable(data.entries[i].val) {
        }
      }
      var a := AlertOf(libs, env, 0, AppId, "MEDICATION_MISSED", "warning", "Missed medication: " + m.medicationName,
                       0.8, [Entry("medication_name", VStr(m.medicationName))], data, JSON, [VStr(m.patientId)], "");
      Ok([a.value])
  }

  /** A Result holding a single alert, or the exception. */
  function One(a: Result<Alert>): (r: Result<seq<Alert>>)
    ensures r.Ok? <==> a.Ok?
    ensures r.Ok? ==> r.value == [a.value]
  {
    match a
    case Ok(x) => Ok([x])
    case Raised(e) => Raised(e)
  }

  /** `_process_json_vitals_data` */
  function JsonVitalsAlerts(libs: Libs, env: Env, d: seq<Entry>, hrT: real, spo2T: real): (r: Result<seq<Alert>>)
    ensures var hr := Get(d, "heart_rate", VInt(0));
      var spo2 := Get(d, "spo2", VInt(0));
      Num(hr).Some? && Num(spo2).Some? && !VitalsAbnormal(Num(hr).value, Num(spo2).value, hrT, spo2T) ==>
        r == Ok([])
    ensures r.Ok? ==> |r.value| <= 1
    ensures r.Ok? ==> forall i :: 0 <= i < |r.value| ==>
      && r.value[i].alertType == "VITALS_ANOMALY_JSON"
      && (r.value[i].severity == "critical" || r.value[i].severity == "warning")
      && r.value[i].score == (if r.value[i].severity == "critical" then 0.9 else 0.7)
  {
    var hr := Get(d, "heart_rate", VInt(0));
    var spo2 := Get(d, "spo2", VInt(0));
    var patientId := Get(d, "patient_id", VStr("unknown"));
    match JsonVitalsAbnormal(hr, spo2, hrT, spo2T)
    case Raised(e) => Raised(e)
    case Ok(abnormal) =>
      if !abnormal then Ok([])
      else match JsonVitalsCritical(hr, spo2)
        case Raised(e) => Raised(e)
        case Ok(critical) =>
          var severity := if critical then "critical" else "warning";
          One(AlertOf(libs, env, 0, AppId, "VITALS_ANOMALY_JSON", severity,
                      "Abnormal vitals from JSON data: HR=" + PyStr(libs, hr) + ", SpO2=" + PyStr(libs, spo2) + "%",
                      SeverityScore(severity),
                      [Entry("source_format", VStr("JSON")), Entry("heart_rate", VStr(PyStr(libs, hr))),
                       Entry("spo2", VStr(PyStr(libs, spo2)))],
                      Get(d, "raw_data", VDict(d)), JSON, [patientId], ""))
  }

  /**
   * Readings over the heart-rate threshold or under the SpO2 threshold give
   * exactly one alert, with the protobuf path's severity and score; it is
   * raised only when the patient id is not a string or the raw data does not
   * serialise.
   */
  lemma JsonVitalsAbnormalAlert(libs: Libs, env: Env, d: seq<Entry>, hrT: real, spo2T: real)
    requires Num(Get(d, "heart_rate", VInt(0))).Some? && Num(Get(d, "spo2", VInt(0))).Some?
    requires VitalsAbnormal(Num(Get(d, "heart_rate", VInt(0))).value, Num(Get(d, "spo2", VInt(0))).value, hrT, spo2T)
    ensures var r := JsonVitalsAlerts(libs, env, d, hrT, spo2T);
      var severity := VitalsSeverity(Num(Get(d, "heart_rate", VInt(0))).value, Num(Get(d, "spo2", VInt(0))).value);
      var patientId := Get(d, "patient_id", VStr("unknown"));
      && (r.Ok? <==> patientId.VStr? && AlertDetails(libs, Get(d, "raw_data", VDict(d)), JSON).Ok?)
      && (r.Ok? ==> && |r.value| == 1 && r.value[0].alertType == "VITALS_ANOMALY_JSON"
                    && r.value[0].severity == severity && r.value[0].score == SeverityScore(severity)
                    && r.value[0].affectedEntities == [patientId.s]
                    && r.value[0].message == "Abnormal vitals from JSON data: HR=" +
                         PyStr(libs, Get(d, "heart_rate", VInt(0))) + ", SpO2=" +
                         PyStr(libs, Get(d, "spo2", VInt(0))) + "%")
  {
    JsonVitalsAgree(Get(d, "heart_rate", VInt(0)), Get(d, "spo2", VInt(0)), hrT, spo2T);
  }

  /** A heart rate that is not a number makes the comparison raise TypeError. */
  lemma JsonVitalsNonNumber(libs: Libs, env: Env, d: seq<Entry>, hrT: real, spo2T: real)
    requires Num(Get(d, "heart_rate", VInt(0))).None?
    ensures JsonVitalsAlerts(libs, env, d, hrT, spo2T) == Raised("TypeError")
  {
  }

  /** `_process_xml_patient_data`: a medical history mentioning diabetes or heart disease. */
  function XmlPatientAlerts(libs: Libs, env: Env, d: seq<Entry>): (r: Result<seq<Alert>>)
    ensures var history := Lower(PyStr(libs, Get(d, "medical_history", VDict([]))));
      !Contains(history, "diabetes") && !Contains(history, "heart_disease") ==> r == Ok([])
    ensures r.Ok? ==> |r.value| <= 1
    ensures r.Ok? ==> forall i :: 0 <= i < |r.value| ==>
      && r.value[i].alertType == "HIGH_RISK_PATIENT" && r.value[i].severity == "info" && r.value[i].score == 0.6
      && r.value[i].message == "High-risk patient profile detected from XML data"
    ensures var history := Lower(PyStr(libs, Get(d, "medical_history", VDict([]))));
      var patientId := Get(d, "patient_id", VStr("unknown"));
      Contains(history, "diabetes") || Contains(history, "heart_disease") ==>
        && (r.Ok? <==> patientId.VStr? && AlertDetails(libs, Get(d, "raw_data", VDict(d)), JSON).Ok?)
        && (r.Ok? ==> |r.value| == 1 && r.value[0].affectedEntities == [patientId.s])
  {
    var patientId := Get(d, "patient_id", VStr("unknown"));
    var history := Get(d, "medical_history", VDict([]));
    var text := Lower(PyStr(libs, history));
    if Contains(text, "diabetes") || Contains(text, "heart_disease") then
      One(AlertOf(libs, env, 0, AppId, "HIGH_RISK_PATIENT", "info", "High-risk patient profile detected from XML data",
                  0.6, [Entry("source_format", VStr("XML")), Entry("risk_factors", VStr(PyStr(libs, history)))],
                  Get(d, "raw_data", VDict(d)), JSON, [patientId], ""))
    else Ok([])
  }

  /** `float(v)` */
  function PyFloat(libs: Libs, v: Value): Result<real>
  {
    match v
    case VBool(b) => Ok(if b then 1.0 else 0.0)
    case VInt(i) => Ok(i as real)
    case VFloat(x) => Ok(x)
    case VStr(s) => (match libs.parseFloat(s) case Some(x) => Ok(x) case None => Raised("ValueError"))
    case VBytes(bs) =>
      (match libs.utf8Decode(bs)
       case Some(s) => (match libs.parseFloat(s) case Some(x) => Ok(x) case None => Raised("ValueError"))
       case None => Raised("ValueError"))
    case _ => Raised("TypeError")
  }

  /**
   * `sum(1 for reading in readings if float(reading.get(key, default)) > t)`
   * (or `< t` when `above` is false).
   */
  function CountReadings(libs: Libs, readings: seq<Value>, key: string, default: Value, t: real, above: bool)
    : (r: Result<nat>)
    ensures r.Ok? ==> r.value <= |readings|
    ensures r.Ok? <==> forall i :: 0 <= i < |readings| ==>
      readings[i].VDict? && PyFloat(libs, Get(readings[i].entries, key, default)).Ok?
  {
    if readings == [] then Ok(0)
    else if !readings[0].VDict? then Raised("AttributeError")
    else match PyFloat(libs, Get(readings[0].entries, key, default))
      case Raised(e) => Raised(e)
      case Ok(x) =>
        match CountReadings(libs, readings[1..], key, default, t, above)
        case Raised(e) => Raised(e)
        case Ok(n) => Ok(n + (if (if above then x > t else x < t) then 1 else 0))
  }

  /** The alert data `_process_csv_sensor_data` attaches: a summary and the first three readings. */
  function CsvAlertData(items: seq<Value>, high: nat): Value
  {
    VDict([Entry("summary", VStr("High HR in " + NatToString(high) + "/" + NatToString(|items|) + " readings")),
           Entry("sample_data", VList(if |items| <= 3 then items else items[..3]))])
  }

  /** The pattern alert for `high` of the readings `items` showing an elevated heart rate. */
  function CsvPatternAlert(libs: Libs, env: Env, items: seq<Value>, high: nat): (r: Result<seq<Alert>>)
    ensures r.Ok? <==> AlertDetails(libs, CsvAlertData(items, high), JSON).Ok?
    ensures r.Ok? ==>
      && |r.value| == 1 && r.value[0].alertType == "PATTERN_ANOMALY_CSV" && r.value[0].severity == "warning"
      && r.value[0].score == 0.8 && r.value[0].affectedEntities == ["csv_patient"]
      && r.value[0].message == "Pattern anomaly detected in CSV data: " + NatToString(high) + "/" +
                               NatToString(|items|) + " readings show elevated heart rate"
  {
    var n := NatToString(|items|);
    var h := NatToString(high);
    One(AlertOf(libs, env, 0, AppId, "PATTERN_ANOMALY_CSV", "warning",
                "Pattern anomaly detected in CSV data: " + h + "/" + n + " readings show elevated heart rate",
                0.8, [Entry("source_format", VStr("CSV")), Entry("readings_count", VStr(n)),
                      Entry("anomaly_count", VStr(h))],
                CsvAlertData(items, high), JSON, [VStr("csv_patient")], ""))
  }

  /**
   * The counting part of `_process_csv_sensor_data` on a list of readings:
   * both counts must convert, then one alert exactly when more than half of
   * the readings show a heart rate above the threshold.
   */
  function CsvReadingsAlerts(libs: Libs, env: Env, items: seq<Value>, hrT: real, spo2T: real)
    : (r: Result<seq<Alert>>)
    ensures var high := CountReadings(libs, items, "heart_rate", VInt(0), hrT, true);
      var low := CountReadings(libs, items, "spo2", VInt(100), spo2T, false);
      && (high.Raised? || low.Raised? ==> r.Raised?)
      && (high.Ok? && low.Ok? && 2 * high.value <= |items| ==> r == Ok([]))
      && (high.Ok? && low.Ok? && 2 * high.value > |items| ==> r == CsvPatternAlert(libs, env, items, high.value))
  {
    match CountReadings(libs, items, "heart_rate", VInt(0), hrT, true)
    case Raised(e) => Raised(e)
    case Ok(high) =>
      match CountReadings(libs, items, "spo2", VInt(100), spo2T, false)
      case Raised(e) => Raised(e)
      case Ok(_) =>
        if 2 * high > |items| then CsvPatternAlert(libs, env, items, high)
        else Ok([])
  }

  /**
   * `_process_csv_sensor_data`: no readings give no alert; readings that are
   * not a list, or a reading whose heart rate or SpO2 does not convert, raise;
   * otherwise one alert exactly when more than half of them show a heart rate
   * above the threshold.
   */
  function CsvSensorAlerts(libs: Libs, env: Env, d: seq<Entry>, hrT: real, spo2T: real): (r: Result<seq<Alert>>)
    ensures !Truthy(Get(d, "readings", VList([]))) ==> r == Ok([])
    ensures var readings := Get(d, "readings", VList([]));
      Truthy(readings) && !readings.VList? ==> r.Raised?
    ensures var readings := Get(d, "readings", VList([]));
      readings.VList? && readings.items != [] ==> r == CsvReadingsAlerts(libs, env, readings.items, hrT, spo2T)
    ensures var readings := Get(d, "readings", VList([]));
      readings.VList? && r.Ok? ==>
        var high := CountReadings(libs, readings.items, "heart_rate", VInt(0), hrT, true);
        high.Ok? && (|r.value| == 1 <==> 2 * high.value > |readings.items|) && |r.value| <= 1
    ensures r.Ok? ==> forall i :: 0 <= i < |r.value| ==>
      r.value[i].alertType == "PATTERN_ANOMALY_CSV" && r.value[i].affectedEntities == ["csv_patient"]
  {
    var readings := Get(d, "readings", VList([]));
    if !Truthy(readings) then Ok([])
    else if !readings.VList? then
      Raised(if readings.VInt? || readings.VFloat? || readings.VBool? then "TypeError" else "AttributeError")
    else CsvReadingsAlerts(libs, env, readings.items, hrT, spo2T)
  }

  /** `_process_generic_json_data`: the words "emergency" or "urgent" anywhere in the dict's text. */
  function GenericJsonAlerts(libs: Libs, env: Env, d: seq<Entry>): (r: Result<seq<Alert>>)
    ensures var text := Lower(PyStr(libs, VDict(d)));
      !Contains(text, "emergency") && !Contains(text, "urgent") ==> r == Ok([])
    ensures r.Ok? ==> |r.value| <= 1
    ensures r.Ok? ==> forall i :: 0 <= i < |r.value| ==>
      && r.value[i].alertType == "EMERGENCY_KEYWORD_DETECTED" && r.value[i].affectedEntities == ["generic_patient"]
      && r.value[i].message == "Emergency keywords detected in JSON data"
    ensures var text := Lower(PyStr(libs, VDict(d)));
      Contains(text, "emergency") || Contains(text, "urgent") ==>
        && (r.Ok? <==> AlertDetails(libs, VDict(d), JSON).Ok?)
        && (r.Ok? ==> |r.value| == 1 && r.value[0].severity == "warning" && r.value[0].score == 0.7)
  {
    var text := Lower(PyStr(libs, VDict(d)));
    if Contains(text, "emergency") || Contains(text, "urgent") then
      One(AlertOf(libs, env, 0, AppId, "EMERGENCY_KEYWORD_DETECTED", "warning",
                  "Emergency keywords detected in JSON data", 0.7,
                  [Entry("source_format", VStr("JSON")), Entry("keywords_found", VStr("emergency/urgent"))],
                  VDict(d), JSON, [VStr("generic_patient")], ""))
    else Ok([])
  }

  /** `generate_alerts`: the rule is chosen by the kind of the parsed data. */
  function GenerateAlerts(libs: Libs, env: Env, parsed: Parsed, config: Option<ApplicationConfig>)
    : (r: Result<seq<Alert>>)
    ensures parsed.PMessage? || parsed.PCropSensorReading? || (parsed.PyValue? && !parsed.v.VDict?) ==> r == Ok([])
    ensures parsed.PSensorReading? ==>
      r == SensorAlerts(libs, env, parsed.reading, Thresholds(config).0, Thresholds(config).1)
    ensures parsed.PMedicationEvent? ==> r == MedicationAlerts(libs, env, parsed.event)
    ensures parsed.PyValue? && parsed.v.VDict? && Lookup(parsed.v.entries, "type") == Some(VStr("vitals_json")) ==>
      r == JsonVitalsAlerts(libs, env, parsed.v.entries, Thresholds(config).0, Thresholds(config).1)
    ensures parsed.PyValue? && parsed.v.VDict? && Lookup(parsed.v.entries, "type") == Some(VStr("patient_xml")) ==>
      r == XmlPatientAlerts(libs, env, parsed.v.entries)
    ensures parsed.PyValue? && parsed.v.VDict? && Lookup(parsed.v.entries, "type") == Some(VStr("sensor_csv")) ==>
      r == CsvSensorAlerts(libs, env, parsed.v.entries, Thresholds(config).0, Thresholds(config).1)
    ensures (&& parsed.PyValue? && parsed.v.VDict?
             && Lookup(parsed.v.entries, "type") != Some(VStr("vitals_json"))
             && Lookup(parsed.v.entries, "type") != Some(VStr("patient_xml"))
             && Lookup(parsed.v.entries, "type") != Some(VStr("sensor_csv"))) ==>
      r == GenericJsonAlerts(libs, env, parsed.v.entries)
  {
    var t := Thresholds(config);
    match parsed
    case PSensorReading(s) => SensorAlerts(libs, env, s, t.0, t.1)
    case PMedicationEvent(m) => MedicationAlerts(libs, env, m)
    case PyValue(VDict(d)) =>
      var kind := Lookup(d, "type");
      if kind == Some(VStr("vitals_json")) then JsonVitalsAlerts(libs, env, d, t.0, t.1)
      else if kind == Some(VStr("patient_xml")) then XmlPatientAlerts(libs, env, d)
      else if kind == Some(VStr("sensor_csv")) then CsvSensorAlerts(libs, env, d, t.0, t.1)
      else GenericJsonAlerts(libs, env, d)
    case _ => Ok([])
  }

  // =====================================================================
  // Contacts and notifications

  /** `get_contacts`: the patient's son (the primary contact) and doctor. */
  function Contacts(entityId: string): (cs: seq<Contact>)
    ensures |cs| == 2 && cs[0].isPrimary && !cs[1].isPrimary
    ensures forall i :: 0 <= i < |cs| ==> cs[i].entityIds == [entityId] && cs[i].appId == AppId
  {
    [Contact("contact_001", AppId, "John Smith (Son)", "family", "+1-555-0123", "john.smith@email.com",
             true, [entityId], map["preferred_method" := "phone"]),
     Contact("contact_002", AppId, "Dr. Sarah Johnson", "doctor", "+1-555-0199", "dr.johnson@hospital.com",
             false, [entityId], map["preferred_method" := "email"])]
  }

  /** `_get_notification_channel`: a call for emergencies, SMS for critical alerts, else the contact's choice. */
  function Channel(alert: Alert, c: Contact): (ch: string)
    ensures alert.severity == "emergency" ==> ch == "CALL"
    ensures alert.severity == "critical" ==> ch == "SMS"
    ensures alert.severity != "emergency" && alert.severity != "critical" ==> ch == PreferredMethod(c)
  {
    if alert.severity == "emergency" then "CALL"
    else if alert.severity == "critical" then "SMS"
    else PreferredMethod(c)
  }

  /** `_get_notification_type` */
  function NotificationType(alert: Alert): (t: string)
    ensures t == "EMERGENCY_ALERT" <==> alert.severity == "emergency" || alert.severity == "critical"
    ensures t != "EMERGENCY_ALERT" ==> t == "HEALTH_UPDATE"
  {
    if alert.severity in ["emergency", "critical"] then "EMERGENCY_ALERT" else "HEALTH_UPDATE"
  }

  /** `_create_notification_message` */
  function NotificationMessage(alert: Alert, c: Contact): (m: string)
    ensures alert.alertType == "FALL_DETECTED" ==>
      m == "EMERGENCY: " + NamedEntity(alert) + " has fallen. Please check on them immediately."
    ensures alert.alertType == "VITALS_ANOMALY" ==>
      m == "HEALTH ALERT: " + NamedEntity(alert) + " has abnormal vital signs. " + alert.message
    ensures alert.alertType == "MEDICATION_MISSED" ==>
      m == "MEDICATION REMINDER: " + NamedEntity(alert) + " missed their medication. " + alert.message
    ensures alert.alertType !in ["FALL_DETECTED", "VITALS_ANOMALY", "MEDICATION_MISSED"] ==>
      m == "HEALTH UPDATE: " + alert.message
    ensures alert.alertType != "FALL_DETECTED" ==>
      |alert.message| <= |m| && m[|m| - |alert.message|..] == alert.message
  {
    var patientId := NamedEntity(alert);
    if alert.alertType == "FALL_DETECTED" then
      "EMERGENCY: " + patientId + " has fallen. Please check on them immediately."
    else if alert.alertType == "VITALS_ANOMALY" then
      "HEALTH ALERT: " + patientId + " has abnormal vital signs. " + alert.message
    else if alert.alertType == "MEDICATION_MISSED" then
      "MEDICATION REMINDER: " + patientId + " missed their medication. " + alert.message
    else "HEALTH UPDATE: " + alert.message
  }

  /** The delivery success rates `_simulate_send_notification` draws against. */
  function SuccessRate(channel: string): (rate: real)
    ensures channel == "CALL" ==> rate == 0.85
    ensures channel == "SMS" ==> rate == 0.95
    ensures channel == "EMAIL" ==> rate == 0.98
    ensures channel == "PUSH" ==> rate == 0.90
    ensures channel !in ["CALL", "SMS", "EMAIL", "PUSH"] ==> rate == 0.9
    ensures 0.85 <= rate <= 0.98
  {
    if channel == "CALL" then 0.85
    else if channel == "SMS" then 0.95
    else if channel == "EMAIL" then 0.98
    else if channel == "PUSH" then 0.90
    else 0.9
  }

  /** The k-th notification of a `process_alert` call, sent to contact `c`. */
  function NotificationFor(env: Env, k: nat, alert: Alert, c: Contact): (n: Notification)
    ensures n.alertId == alert.alertId && n.timestamp == alert.timestamp && n.recipientId == c.contactId
    ensures n.appId == AppId && n.channel == Channel(alert, c) && n.notificationType == NotificationType(alert)
    ensures n.sentSuccessfully <==> env.random(k) < SuccessRate(Channel(alert, c))
    ensures n.message == NotificationMessage(alert, c)
  {
    var channel := Channel(alert, c);
    Notification(env.uuid(k), AppId, alert.timestamp, NotificationType(alert), channel, c.contactId,
                 NotificationMessage(alert, c), env.random(k) < SuccessRate(channel), alert.alertId, "", NoContent)
  }

  /** The notification in position n of a `process_alert` call: entity n / 2, contact n % 2. */
  function Slot(env: Env, alert: Alert, n: nat): Notification
    requires n < 2 * |alert.affectedEntities|
  {
    NotificationFor(env, n, alert, Contacts(alert.affectedEntities[n / 2])[n % 2])
  }

  lemma SlotOf(env: Env, alert: Alert, i: nat, j: nat)
    requires i < |alert.affectedEntities| && j < 2
    ensures Slot(env, alert, 2 * i + j) == NotificationFor(env, 2 * i + j, alert, Contacts(alert.affectedEntities[i])[j])
  {
    assert (2 * i + j) / 2 == i && (2 * i + j) % 2 == j;
  }

  /**
   * What `process_alert` returns: for each affected entity in order, one
   * notification per contact in order, the n-th drawing the n-th uuid and random number.
   */
  function AlertNotifications(env: Env, alert: Alert): (r: seq<Notification>)
    ensures |r| == 2 * |alert.affectedEntities|
    ensures forall n :: 0 <= n < |r| ==> r[n] == Slot(env, alert, n)
  {
    seq(2 * |alert.affectedEntities|, n requires 0 <= n < 2 * |alert.affectedEntities| => Slot(env, alert, n))
  }

  /** The notifications sent so far are the first slots of the alert's fan-out. */
  predicate SlotsSoFar(env: Env, alert: Alert, ns: seq<Notification>)
  {
    |ns| <= 2 * |alert.affectedEntities| && forall n :: 0 <= n < |ns| ==> ns[n] == Slot(env, alert, n)
  }

  /** Sending the next notification, to contact `j` of entity `i`, fills the next slot. */
  lemma SlotsSoFarSnoc(env: Env, alert: Alert, ns: seq<Notification>, i: nat, j: nat)
    requires SlotsSoFar(env, alert, ns) && |ns| == 2 * i + j
    requires i < |alert.affectedEntities| && j < 2
    ensures SlotsSoFar(env, alert, ns + [NotificationFor(env, |ns|, alert, Contacts(alert.affectedEntities[i])[j])])
  {
    var last := NotificationFor(env, |ns|, alert, Contacts(alert.affectedEntities[i])[j]);
    var next := ns + [last];
    SlotOf(env, alert, i, j);
    forall n | 0 <= n < |next| ensures next[n] == Slot(env, alert, n) {
      if n < |ns| {
        assert next[n] == ns[n];
      } else {
        assert n == 2 * i + j && next[n] == last;
      }
    }
  }

  /** `process_alert` as the code runs it: entities in the outer loop, contacts in the inner one. */
  method ProcessAlert(env: Env, alert: Alert) returns (notifications: seq<Notification>)
    ensures notifications == AlertNotifications(env, alert)
  {
    notifications := [];
    var i := 0;
    while i < |alert.affectedEntities|
      invariant 0 <= i <= |alert.affectedEntities|
      invariant |notifications| == 2 * i
      invariant SlotsSoFar(env, alert, notifications)
    {
      var entityId := alert.affectedEntities[i];
      var contacts := Contacts(entityId);
      var j := 0;
      while j < |contacts|
        invariant 0 <= j <= |contacts| == 2
        invariant |notifications| == 2 * i + j
        invariant SlotsSoFar(env, alert, notifications)
      {
        SlotsSoFarSnoc(env, alert, notifications, i, j);
        notifications := notifications + [NotificationFor(env, |notifications|, alert, contacts[j])];
        j := j + 1;
      }
      i := i + 1;
    }
    assert notifications == AlertNotifications(env, alert);
  }

  /** Every entity of the alert reaches its primary contact and its doctor, in that order. */
  lemma NotificationsReachBothContacts(env: Env, alert: Alert, i: nat)
    requires i < |alert.affectedEntities|
    ensures AlertNotifications(env, alert)[2 * i].recipientId == "contact_001"
    ensures AlertNotifications(env, alert)[2 * i + 1].recipientId == "contact_002"
  {
    assert (2 * i) / 2 == i && (2 * i) % 2 == 0;
    assert (2 * i + 1) / 2 == i && (2 * i + 1) % 2 == 1;
  }

  // =====================================================================
  // generate_summary

  /** `generate_summary`: the care summary with its five metrics and its text. */
  function Summary(env: Env, entityId: string, period: string, alerts: seq<Alert>,
                   notifications: seq<Notification>): (s: ApplicationSummary)
    ensures s.appId == AppId && s.summaryId == env.uuid(0) && s.period == period && s.entityIds == [entityId]
    ensures s.alerts == alerts && s.notifications == notifications
    ensures s.metrics.Keys ==
      {"total_alerts", "critical_alerts", "emergency_alerts", "notifications_sent", "successful_notifications"}
    ensures s.metrics["total_alerts"] == |alerts| && s.metrics["notifications_sent"] == |notifications|
    ensures s.metrics["critical_alerts"] + s.metrics["emergency_alerts"] <= s.metrics["total_alerts"]
    ensures 0 <= s.metrics["successful_notifications"] <= s.metrics["notifications_sent"]
    ensures s.metrics["critical_alerts"] == CountSeverity(alerts, "critical")
    ensures s.metrics["emergency_alerts"] == CountSeverity(alerts, "emergency")
    ensures s.metrics["successful_notifications"] == CountSent(notifications)
    ensures |alerts| == 0 <==> s.summaryText == "Patient " + entityId + ": No health alerts during " + period + ". All systems normal."
    ensures |alerts| != 0 ==>
      s.summaryText ==
        "Patient " + entityId + ": " + NatToString(|alerts|) + " health alerts during " + period + ". " +
        "Emergency: " + NatToString(s.metrics["emergency_alerts"]) +
        ", Critical: " + NatToString(s.metrics["critical_alerts"]) + ". " +
        NatToString(|notifications|) + " family notifications sent."
  {
    var critical := CountSeverity(alerts, "critical");
    var emergency := CountSeverity(alerts, "emergency");
    SeverityCountsDisjoint(alerts, "critical", "emergency");
    var metrics := map[
      "total_alerts" := |alerts|,
      "critical_alerts" := critical,
      "emergency_alerts" := emergency,
      "notifications_sent" := |notifications|,
      "successful_notifications" := CountSent(notifications)];
    var text :=
      if |alerts| == 0 then "Patient " + entityId + ": No health alerts during " + period + ". All systems normal."
      else "Patient " + entityId + ": " + NatToString(|alerts|) + " health alerts during " + period + ". " +
           "Emergency: " + NatToString(emergency) + ", Critical: " + NatToString(critical) + ". " +
           NatToString(|notifications|) + " family notifications sent.";
    assert |alerts| != 0 ==> text[|"Patient " + entityId + ": "|] != 'N';
    ApplicationSummary(env.uuid(0), AppId, env.now, period, alerts, notifications, [entityId], metrics, text)
  }

  // =====================================================================
  // The plugin

  function Plugin(libs: Libs): (p: Registry.Plugin)
    ensures p.appId == AppId && p.appName == AppName && p.supportedDataTypes == SupportedDataTypes
  {
    Registry.Plugin(AppId, AppName, SupportedDataTypes,
      (env, packet) => Ok(ParsePacket(libs, env, packet)),
      (env, parsed, config) => GenerateAlerts(libs, env, parsed, config),
      entityId => Contacts(entityId),
      (env, alert) => Ok(AlertNotifications(env, alert)),
      (env, entityId, period, alerts, notifications) => Summary(env, entityId, period, alerts, notifications))
  }

  /** The elderly-care plugin passes `validate_plugin`. */
  lemma PluginValidates(libs: Libs)
    ensures ValidatePlugin(AttributesOf(Plugin(libs))) == true
  {
    IdentityValidates(Plugin(libs));
  }

  /** Any plugin record with this service's id and name passes `validate_plugin`. */
  lemma IdentityValidates(p: Registry.Plugin)
    requires p.appId == AppId && p.appName == AppName
    ensures ValidatePlugin(AttributesOf(p)) == true
  {
    assert AppId[0] == 'e' && AppName[0] == 'E';
    StripNonBlank(AppId);
    StripNonBlank(AppName);
    ValidateRecord(p);
  }

  /**
   * Through the registry, a "vitals_json" packet with `json_data` set yields no
   * alerts, whatever the readings say.
   */
  lemma JsonVitalsPacketHasNoAlerts(libs: Libs, reg: PluginRegistry, env: Env, p: DataPacket,
                                    config: Option<ApplicationConfig>)
    requires p.appId in reg.plugins && reg.plugins[p.appId] == Plugin(libs)
    requires p.dataType == "vitals_json" && p.jsonData.Some?
    ensures reg.AlertsFor(env, p, config) == []
  {
    JsonVitalsPacketIsNone(libs, env, p);
  }
}
