// The protocol-buffer messages the Origami core exchanges: the generic
// packet, alert, notification, contact and summary messages, the
// elderly-care and agriculture payload messages, and the legacy
// elderly-care messages used by the adapter and the family service.

module Messages {
  import opened PyRuntime

  /** google.protobuf.Timestamp; `datetime` values are represented by it too. */
  datatype Timestamp = Timestamp(seconds: int, nanos: int)

  datatype DataFormat = JSON | XML | CSV | YAML | TEXT | BINARY | PROTOBUF | OtherFormat(code: int)

  /** Formats whose bytes are UTF-8 text. */
  predicate IsTextFormat(f: DataFormat)
  {
    f in {JSON, XML, CSV, YAML, TEXT}
  }

  datatype GenericData = GenericData(
    format: DataFormat,
    contentType: string,
    rawData: bytes,
    sizeBytes: nat,
    checksum: string,
    formatMetadata: map<string, string>)

  /**
   * A packet of application data.  The five content fields are the members of
   * the packet's content oneof: `None` is an unset field.
   */
  datatype DataPacket = DataPacket(
    packetId: string,
    appId: string,
    dataType: string,
    sourceId: string,
    schemaVersion: string,
    timestamp: Timestamp,
    metadata: map<string, string>,
    jsonData: Option<string>,
    xmlData: Option<string>,
    textData: Option<string>,
    genericData: Option<GenericData>,
    payload: Option<bytes>)

  datatype Alert = Alert(
    alertId: string,
    appId: string,
    timestamp: Timestamp,
    alertType: string,
    severity: string,
    message: string,
    score: real,
    context: map<string, string>,
    affectedEntities: seq<string>,
    sourcePacketId: string,
    jsonDetails: string,
    genericAlertData: Option<GenericData>)

  /** The content oneof of a notification. */
  datatype NotificationContent =
    | NoContent
    | HtmlContent(html: string)
    | TextContent(text: string)
    | RichContent(rich: GenericData)

  datatype Notification = Notification(
    notificationId: string,
    appId: string,
    timestamp: Timestamp,
    notificationType: string,
    channel: string,
    recipientId: string,
    message: string,
    sentSuccessfully: bool,
    alertId: string,
    templateId: string,
    content: NotificationContent)

  datatype Contact = Contact(
    contactId: string,
    appId: string,
    name: string,
    role: string,
    phone: string,
    email: string,
    isPrimary: bool,
    entityIds: seq<string>,
    preferences: map<string, string>)

  datatype ApplicationSummary = ApplicationSummary(
    summaryId: string,
    appId: string,
    timestamp: Timestamp,
    period: string,
    alerts: seq<Alert>,
    notifications: seq<Notification>,
    entityIds: seq<string>,
    metrics: map<string, int>,
    summaryText: string)

  datatype ApplicationConfig = ApplicationConfig(thresholds: map<string, real>)

  datatype Application = Application(
    appId: string,
    appName: string,
    version: string,
    description: string,
    dataTypes: seq<string>)

  // Elderly-care payloads

  datatype Vitals = Vitals(heartRate: real, spo2: real, bodyTemp: real, systolic: real, diastolic: real)

  datatype SensorReading = SensorReading(
    deviceId: string,
    patientId: string,
    timestamp: Timestamp,
    vitals: Vitals,
    fallDetected: bool)

  datatype MedicationEvent = MedicationEvent(
    patientId: string,
    medicationId: string,
    medicationName: string,
    scheduledTime: Timestamp,
    takenTime: Option<Timestamp>,
    taken: bool)

  datatype EmergencyContact = EmergencyContact(
    contactId: string,
    name: string,
    relationship: string,
    phone: string,
    email: string,
    isPrimary: bool,
    notifyOnAlert: bool)

  datatype FamilyCommunication = FamilyCommunication(
    patientId: string,
    contactId: string,
    timestamp: Timestamp,
    communicationType: string,
    message: string,
    successful: bool,
    alertId: string)

  datatype ElderlyRecord = ElderlyRecord(
    patientId: string,
    name: string,
    age: int,
    emergencyContacts: seq<EmergencyContact>,
    familyCommunications: seq<FamilyCommunication>)

  // Agriculture payloads

  datatype SoilData = SoilData(moistureLevel: real, nitrogenLevel: real, phosphorusLevel: real, potassiumLevel: real)

  datatype WeatherData = WeatherData(temperature: real)

  datatype CropSensorReading = CropSensorReading(
    sensorId: string,
    fieldId: string,
    cropType: string,
    timestamp: Timestamp,
    soil: SoilData,
    weather: WeatherData)

  // Legacy elderly-care application messages

  datatype LegacyAlert = LegacyAlert(
    patientId: string,
    timestamp: Timestamp,
    alertType: string,
    message: string,
    score: real,
    alertId: string)

  datatype FamilyNotification = FamilyNotification(
    patientId: string,
    contactId: string,
    timestamp: Timestamp,
    notificationType: string,
    deliveryMethod: string,
    message: string,
    sentSuccessfully: bool)

  datatype CareSummary = CareSummary(
    patientId: string,
    alerts: seq<LegacyAlert>,
    familyNotifications: seq<FamilyNotification>,
    summaryText: string)

  /** `contact.preferences.get("preferred_method", "EMAIL").upper()` */
  function PreferredMethod(c: Contact): (m: string)
    ensures "preferred_method" !in c.preferences ==> m == "EMAIL"
    ensures "preferred_method" in c.preferences ==> m == Upper(c.preferences["preferred_method"])
  {
    Upper(if "preferred_method" in c.preferences then c.preferences["preferred_method"] else "EMAIL")
  }

  /** The entity a plugin's notification text names: the first affected entity, or "Unknown". */
  function NamedEntity(alert: Alert): (id: string)
    ensures alert.affectedEntities != [] ==> id == alert.affectedEntities[0]
    ensures alert.affectedEntities == [] ==> id == "Unknown"
  {
    if alert.affectedEntities != [] then alert.affectedEntities[0] else "Unknown"
  }

  // Counting

  /** `len([a for a in alerts if a.severity == severity])` */
  function CountSeverity(alerts: seq<Alert>, severity: string): (n: nat)
    ensures n <= |alerts|
  {
    if alerts == [] then 0
    else (if alerts[0].severity == severity then 1 else 0) + CountSeverity(alerts[1..], severity)
  }

  /** `len([a for a in alerts if a.type == alertType])` */
  function CountType(alerts: seq<Alert>, alertType: string): (n: nat)
    ensures n <= |alerts|
  {
    if alerts == [] then 0
    else (if alerts[0].alertType == alertType then 1 else 0) + CountType(alerts[1..], alertType)
  }

  /** `len([n for n in notifications if n.sent_successfully])` */
  function CountSent(notifications: seq<Notification>): (n: nat)
    ensures n <= |notifications|
  {
    if notifications == [] then 0
    else (if notifications[0].sentSuccessfully then 1 else 0) + CountSent(notifications[1..])
  }

  lemma {:induction false} CountTypeConcat(a: seq<Alert>, b: seq<Alert>, alertType: string)
    ensures CountType(a + b, alertType) == CountType(a, alertType) + CountType(b, alertType)
  {
    if a != [] {
      assert (a + b)[1..] == a[1..] + b;
      CountTypeConcat(a[1..], b, alertType);
    } else {
      assert a + b == b;
    }
  }

  /** Two different severities never count the same alert. */
  lemma {:induction false} SeverityCountsDisjoint(alerts: seq<Alert>, s1: string, s2: string)
    requires s1 != s2
    ensures CountSeverity(alerts, s1) + CountSeverity(alerts, s2) <= |alerts|
  {
    if alerts != [] {
      SeverityCountsDisjoint(alerts[1..], s1, s2);
    }
  }

  /** Three different alert types never count the same alert. */
  lemma {:induction false} TypeCountsDisjoint(alerts: seq<Alert>, t1: string, t2: string, t3: string)
    requires t1 != t2 && t1 != t3 && t2 != t3
    ensures CountType(alerts, t1) + CountType(alerts, t2) + CountType(alerts, t3) <= |alerts|
  {
    if alerts != [] {
      TypeCountsDisjoint(alerts[1..], t1, t2, t3);
    }
  }
}
