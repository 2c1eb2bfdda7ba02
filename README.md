# Origami core in Dafny

Origami is a plugin framework for monitoring applications. This project models and proves the parts of it that decide what happens to data. Two plugins ship with it: elderly care and smart agriculture.

- A **plugin registry** maps an application id to its plugin. It routes a data packet through the plugin's parser and alert rules, and an alert through the plugin's notification fan-out. It normalises what the plugin returns and never raises.
- A **format codec** wraps JSON, XML, CSV, YAML, text and binary content into a generic data message with size, checksum and encoding metadata. It converts dictionaries to and from XML element trees and tables to and from CSV rows. It builds packets, alerts and notifications with the right content field filled.
- The **elderly-care plugin** and the **agriculture plugin** each hold:
  - threshold rules that turn readings into alerts with a severity and a score;
  - a fan-out of every alert to the contacts of every affected entity;
  - channel and notification-type tables;
  - a summary with counted metrics.
- The **adapter** provides severity histograms, per-application statistics, the system overview, summary filtering and the legacy elderly-care conversions.
- The **family service** keeps an append-only communication log. It finds primary and on-alert contacts and escalates alerts: first the primary contact, then every other on-alert contact by SMS when the score is at least 0.9.

The Python runtime the code relies on is modelled explicitly:
- dynamically typed values;
- insertion-ordered dictionaries as lists of entries;
- exceptions as `Result.Raised(name)`;
- `str.strip`, `lower`, `upper` and `in` on strings.

The libraries the code calls are fields of a `Libs` record of functions. They are JSON, YAML and CSV parsing and printing, XML text, SHA-256, UTF-8, protobuf decoding, float and time formatting. They are left uninterpreted, with only the facts the code relies on: a SHA-256 hex digest has 64 characters, and decoding inverts encoding where a round trip is claimed.

The clock, `uuid4()` and `random.random()` are inputs. They come in an `Env` value: `env.now`, `env.uuid(k)` and `env.random(k)`, where `k` counts the draws made so far within one call.

Files:

| file | module | models |
|---|---|---|
| py_runtime.dfy | PyRuntime | Python values, dicts, strings |
| messages.dfy | Messages | the protobuf messages (core, elderly, agriculture, legacy elderly-app) |
| externals.dfy | Externals | library oracles, environment, `str()` of a value |
| registry.dfy | Registry | app/registry.py |
| serializer.dfy | Serializer | app/serializer.py |
| serializer_laws.dfy | SerializerLaws | round-trip and grouping laws of app/serializer.py |
| elderly_service.dfy | ElderlyService | app/plugins/elderly_service.py |
| agriculture_service.dfy | AgricultureService | app/plugins/agriculture_service.py |
| adapter.dfy | Adapter | app/adapter.py |
| family_service.dfy | FamilyService | app/family_service.py |

Where the code and its tests disagree, the model follows the code:
- A `vitals_json` packet that carries its data in `json_data` never parses in the elderly plugin. `extract_packet_data` hands back the raw JSON string, and `_parse_vitals_json` then fails on it (`ElderlyService.JsonVitalsPacketIsNone`). A `vitals_json` packet carried as JSON generic data does parse (`ElderlyService.GenericVitalsPacketParses`).
- The plugins emit alert types `FALL_DETECTED` and `MEDICATION_MISSED`. The family service and the adapter's escalation rule look for `FALL` instead, so a fall is never escalated through the legacy path (`Adapter.FallAlertIsNotEscalated`).
- The registry API the tests call (`register`, `process_data`, `generate_notifications`) does not exist. The registry is modelled as app/registry.py defines it.

## Model

| member | source | states |
|---|---|---|
| Registry.PluginRegistry.constructor | app/registry.py:56-57 | a new registry has no plugins |
| Registry.PluginRegistry.RegisterPlugin | app/registry.py:60-67 | the plugin is stored under its app id, replacing any earlier one; every other id keeps its plugin; the registry invariant holds |
| Registry.PluginRegistry.UnregisterPlugin | app/registry.py:69-75 | exactly that id is removed; an absent id leaves the registry unchanged; every other id keeps its plugin |
| Registry.PluginRegistry.GetPlugin | app/registry.py:77-79 | the registered plugin, or None exactly when the id is not registered |
| Registry.PluginRegistry.ListPlugins | app/registry.py:81-83 | the ids without repetition, exactly those that have a plugin |
| Registry.PluginRegistry.GetApplications | app/registry.py:85-96 | one application record per listed id, in listing order, with the plugin's id, name and data types and version 1.0.0 |
| Registry.ApplicationOf | app/registry.py:88-94 | the application record copies id, name and data types and sets version 1.0.0 |
| Registry.PluginRegistry.RouteDataPacket | app/registry.py:98-109 | None for an unregistered app id or a parser that raises, otherwise what the plugin's parser returns |
| Registry.PluginRegistry.GenerateAlerts | app/registry.py:111-138 | the empty list when no plugin is registered, when parsing gives None or raises, or when the rules raise; otherwise as many alerts as the rules gave, in their order, each with the packet's app id forced, a zero timestamp and an empty source packet id back-filled from the packet, and nothing else changed |
| Registry.PluginRegistry.AlertsFor | app/registry.py:111-138 | the alerts of a packet: none for an unregistered app id, a parser that raises or returns None, or rules that raise; otherwise the rules' alerts normalised against the packet |
| Registry.NormaliseAlert | app/registry.py:126-132 | app id forced to the packet's; timestamp and source packet id back-filled only when unset; all other fields unchanged |
| Registry.NormaliseAlerts | app/registry.py:125-133 | element-wise normalisation keeping length and order |
| Registry.NormaliseAlertIdempotent | app/registry.py:126-132 | for every alert and packet, normalising twice against the same packet equals normalising once |
| Registry.NormaliseAlertKeepsSetFields | app/registry.py:126-132 | an alert with timestamp and source packet id set only gets its app id changed |
| Registry.PluginRegistry.ProcessAlert | app/registry.py:140-162 | the empty list for an unregistered app id or a raising plugin; otherwise the plugin's notifications, same length and order, each with the alert's app id forced and timestamp and alert id back-filled from the alert when unset |
| Registry.PluginRegistry.NotificationsFor | app/registry.py:140-162 | the notifications of an alert: none for an unregistered app id or a plugin that raises; otherwise the plugin's notifications normalised against the alert |
| Registry.NormaliseNotification | app/registry.py:150-156 | app id forced to the alert's; timestamp and alert id back-filled only when unset; all other fields unchanged |
| Registry.NormaliseNotifications | app/registry.py:149-157 | element-wise normalisation keeping length and order |
| Registry.ValidatePlugin | app/registry.py:164-183 | true if and only if app id and app name are non-blank strings, the data types attribute is a list, and all five required methods are callable |
| Registry.MethodsCallable | app/registry.py:173-177 | true if and only if every named attribute is callable |
| Registry.ValidateRecord | app/registry.py:164-183 | a plugin record validates if and only if its id and name are not blank after stripping |
| Serializer.GenericDataOf | app/serializer.py:33-98 | succeeds exactly when the raw content can be produced; the result has the requested format, that raw content, size equal to its length, a 64-character SHA-256 checksum of it, the given content type or else the format's default, and the format metadata |
| Serializer.RawData | app/serializer.py:42-82 | bytes pass unchanged, a string is UTF-8 encoded, and only JSON, XML and CSV serialisation can raise |
| Serializer.FormatMetadata | app/serializer.py:87-96 | the keys are exactly the caller's keys plus `encoding` for text formats; `encoding` is utf-8 for every text format, overriding the caller; any other key keeps its last value |
| Serializer.CreateGenericData | app/serializer.py:33-98 | the step-by-step builder, including its metadata loop, equals GenericDataOf |
| Serializer.ExtractData | app/serializer.py:100-137 | raw bytes for a "bytes" request or a binary or unknown format; JSON and YAML give LoadOrText with their loader; XML gives XmlToDict of the decoded text for "dict" and the text otherwise; CSV gives CsvToList of the text for "list" and the text otherwise; TEXT gives the decoded string; every text format passes on a decoding error |
| Serializer.LoadOrText | app/serializer.py:111-115 | a decoding error is raised; decoded text the loader accepts gives the loaded value, and text it rejects comes back as the string |
| Serializer.XmlToDict | app/serializer.py:166-170 | malformed text raises ParseError; otherwise the dictionary or string of the parsed root element |
| Serializer.XmlRoot | app/serializer.py:142-143 | a `data` root without text holding one child per dictionary entry, tagged with the entry's key, in order |
| Serializer.DictToXml | app/serializer.py:140-146 | succeeds exactly when the `data` tree pretty-prints, giving that text; otherwise raises ExpatError |
| Serializer.DictToXmlElement | app/serializer.py:148-163 | appends one child per dictionary entry, in insertion order, to the parent's children |
| Serializer.EntryToXmlElement | app/serializer.py:150-163 | one entry becomes the element tagged with its key: nested dictionary, repeated items, or the text of the value |
| Serializer.ListToXmlItems | app/serializer.py:155-161 | appends one `item` child per list element, in order |
| Serializer.DictChildren | app/serializer.py:149-163 | one child per entry, tagged with the entry's key |
| Serializer.ItemElements | app/serializer.py:155-161 | one `item` element per list element |
| Serializer.XmlElementToDict | app/serializer.py:171-187 | the looping converter equals ElementToDict |
| Serializer.ElementToDict | app/serializer.py:171-187 | the value of an element is a string or a dictionary |
| Serializer.Absorb | app/serializer.py:180-185 | adding a child succeeds exactly on a dictionary and gives a dictionary |
| Serializer.AddChild | app/serializer.py:180-185 | the in-place child insertion equals Absorb |
| Serializer.CollectCons | app/serializer.py:179-185 | folding the children processes the first child, then the rest |
| SerializerLaws.LeafValue | app/serializer.py:175-177 | a childless element with non-blank text becomes its stripped text |
| SerializerLaws.MixedContentRaises | app/serializer.py:175-185 | an element with non-blank text and children raises TypeError |
| SerializerLaws.ChildrenGrouped | app/serializer.py:179-185 | the dictionary of an element with children has one key per distinct child tag in first-seen order; a tag seen once maps to that child's value, a repeated tag to a list of its children's values in document order |
| SerializerLaws.XmlTreeRoundTrip | app/serializer.py:148-187 | converting a plain dictionary to an element and back gives the same dictionary |
| SerializerLaws.XmlParsedRoundTrip | app/serializer.py:139-187 | the same round trip through the XML text oracle, for any tree whose parse resembles the printed tree |
| SerializerLaws.XmlGenericRoundTrip | app/serializer.py:33-137 | an XML generic data message of a plain dictionary extracts as "dict" to that dictionary |
| Serializer.DictRow | app/serializer.py:194-199 | a row is written exactly when the item is a dictionary whose keys are all header fields; it has one cell per field, missing fields empty |
| Serializer.DictRows | app/serializer.py:196-199 | one row per item when writing succeeds |
| Serializer.DictRowsOk | app/serializer.py:196-199 | writing the rows succeeds if and only if every item can be written |
| Serializer.CsvRows | app/serializer.py:189-214 | the rows follow the data's shape: a list led by a dictionary gives the table rows, a dictionary one key-value row per entry, any other list one row per item |
| Serializer.CsvRowsOfDicts | app/serializer.py:194-199 | a list led by a dictionary gives the first dictionary's keys as header plus one row per item, in order, and raises exactly when some item cannot be written |
| Serializer.ToCsv | app/serializer.py:189-214 | the buffered writer equals the CSV text of CsvRows |
| Serializer.WriteRows | app/serializer.py:200-212 | the writing loop emits the CSV line of every row in order |
| Serializer.WriteTable | app/serializer.py:194-199 | the header-then-rows loop emits the header and each row in order, or the error of the first row that cannot be written |
| Serializer.CsvToList | app/serializer.py:216-221 | a list of string-valued dictionaries keyed by the header; no rows give the empty list |
| Serializer.Records | app/serializer.py:219-221 | one record per non-empty data row, each keyed by exactly the header fields |
| SerializerLaws.CsvRoundTrip | app/serializer.py:189-221 | a uniform table of string-valued dictionaries written to CSV and read back gives the same dictionaries |
| SerializerLaws.CsvGenericRoundTrip | app/serializer.py:33-137 | the same round trip through a CSV generic data message extracted as "list" |
| SerializerLaws.JsonGenericRoundTrip | app/serializer.py:33-137 | a JSON generic data message extracts to the value the JSON oracle reads back |
| SerializerLaws.YamlGenericRoundTrip | app/serializer.py:33-137 | a YAML generic data message extracts to the value the YAML oracle reads back |
| SerializerLaws.TextGenericRoundTrip | app/serializer.py:33-137 | a TEXT generic data message of a string extracts to that string |
| SerializerLaws.BytesGenericRoundTrip | app/serializer.py:33-137 | a binary generic data message extracts to the same bytes |
| Serializer.PacketOf | app/serializer.py:228-266 | packet id, app, type, source, schema, timestamp (default now) and stringified metadata; exactly one content field filled according to the format: JSON text, the string of the data for XML and TEXT, generic data otherwise; JSON fails only on unserialisable data, XML and TEXT never fail |
| Serializer.CreateDataPacketGeneric | app/serializer.py:228-266 | the step-by-step builder equals PacketOf |
| Serializer.CopyAsStrings | app/serializer.py:262-264 | the metadata loop stores the string of every value under its key |
| Serializer.CreateDataPacket | app/serializer.py:269-289 | a payload packet: only the payload is set, with the given fields and stringified metadata |
| Serializer.ExtractPacketData | app/serializer.py:292-311 | fields are tried in the order json, xml, text, generic data, payload: JSON text is returned as is, or loaded for "dict" with JSONDecodeError on malformed text; XML text as is, or XmlToDict for "dict"; text as is; generic data by ExtractData with the same format; the payload bytes; with none set the result is None |
| SerializerLaws.StringPacketRoundTrip | app/serializer.py:228-311 | an XML or TEXT packet of a string extracts back to that string |
| SerializerLaws.JsonPacketRoundTrip | app/serializer.py:228-311 | a packet built from a serialisable dictionary in JSON format succeeds; it extracts to its JSON text for any format but "dict", and for "dict" to the dictionary itself when the JSON oracle reads its own dump back |
| SerializerLaws.GenericPacketRoundTrip | app/serializer.py:228-311 | a YAML or binary packet extracts to what the generic data extracts to |
| Serializer.AlertOf | app/serializer.py:314-350 | succeeds exactly when the affected entities are strings and the alert data can be encoded; the alert carries the given fields, a stringified context, the entities in order, JSON details for JSON data and generic data for other formats |
| Serializer.AffectedIds | app/serializer.py:335-336 | succeeds exactly when every entity is a string, keeping them in order |
| Serializer.AlertDetails | app/serializer.py:338-348 | falsy alert data gives neither details nor generic data; JSON data gives the dumped text; other formats give the generic data message |
| Serializer.CreateAlertWithData | app/serializer.py:314-350 | the step-by-step builder equals AlertOf |
| Serializer.NotificationWithContent | app/serializer.py:353-383 | never marked sent; html stores and repeats the string of the content; rich dictionary content becomes JSON generic data with its dump as message, failing only on unserialisable content; anything else is text content repeated as message |
| ElderlyService.ParsePacket | app/plugins/elderly_service.py:43-92 | the structured data types are read by ParseStructured whatever else is set; otherwise a packet with a payload is decoded by ParsePayload, and one without by ParseContent |
| ElderlyService.ParseStructured | app/plugins/elderly_service.py:47-56 | the packet data is extracted with format "auto"; an extraction error gives None; vitals_json gives None exactly when the extracted value is not a dictionary and otherwise the vitals record; patient_data_xml gives the patient record or None when it raises; sensor_csv always gives the sensor record |
| ElderlyService.ParsePayload | app/plugins/elderly_service.py:59-78 | sensor_reading and medication_event give the decoded message or None when decoding fails; emergency_contact and family_communication give the decoded message exactly when it decodes; any other data type gives None |
| ElderlyService.DecodeMessage | app/plugins/elderly_service.py:70-78 | the decoded message of the named type exactly when the payload decodes, None otherwise |
| ElderlyService.ParseContent | app/plugins/elderly_service.py:81-88 | json_data gives the loaded value or None on malformed JSON; then xml_data gives the XML dictionary or None on a parse error; then text_data gives a dictionary with text_content and data_type; nothing set gives None |
| ElderlyService.ResultValue | app/plugins/elderly_service.py:90-92 | a value is passed on and a raised exception becomes None |
| ElderlyService.JsonVitalsPacketIsNone | app/plugins/elderly_service.py:47-52 | a vitals_json packet carrying json_data always parses to None, because the raw JSON string has no `.get` |
| ElderlyService.GenericVitalsPacketParses | app/plugins/elderly_service.py:47-52 | a vitals packet carried as JSON generic data parses to a vitals record around the decoded dictionary |
| ElderlyService.ParseVitalsJson | app/plugins/elderly_service.py:94-106 | succeeds exactly on a dictionary and gives the vitals record with the raw data kept |
| ElderlyService.ParsePatientXml | app/plugins/elderly_service.py:108-120 | a dictionary gives the patient record with its medical history; a string is first converted by XmlToDict: a parse error is raised, a dictionary gives the patient record of that dictionary, and a plain string raises AttributeError; anything but a string or dictionary raises AttributeError |
| ElderlyService.ParseSensorCsv | app/plugins/elderly_service.py:122-132 | the sensor record with the readings, CSV text being read into rows first |
| ElderlyService.Thresholds | app/plugins/elderly_service.py:139-144 | heart rate 120 and SpO2 90 unless the configuration sets them |
| ElderlyService.SensorAlerts | app/plugins/elderly_service.py:172-209 | a fall alert first (emergency, score 1.0) exactly when a fall is detected, then one vitals alert exactly when heart rate exceeds or SpO2 falls below its threshold, critical over 150 or under 85 with score 0.9, else warning with 0.7 |
| ElderlyService.FallAlert | app/plugins/elderly_service.py:178-190 | the emergency fall alert with score 1.0 for the patient, with the message "Fall detected for patient" and the patient id |
| ElderlyService.VitalsAlert | app/plugins/elderly_service.py:194-207 | the vitals alert with the severity of the readings and its score, with the message giving both readings in the float format |
| ElderlyService.MedicationAlerts | app/plugins/elderly_service.py:211-229 | one warning alert with score 0.8 exactly when the medication was not taken, with the message "Missed medication:" and the medication name |
| ElderlyService.JsonVitalsAlerts | app/plugins/elderly_service.py:231-254 | no alert when both readings are numbers within the thresholds; at most one alert, of type VITALS_ANOMALY_JSON, critical with 0.9 or warning with 0.7 |
| ElderlyService.JsonVitalsAbnormalAlert | app/plugins/elderly_service.py:239-253 | numeric readings outside the thresholds give exactly one VITALS_ANOMALY_JSON alert for the patient, with the protobuf path's severity and score and a message giving both readings as strings; it fails exactly when the patient id is not a string or the raw data cannot be encoded |
| ElderlyService.JsonVitalsNonNumber | app/plugins/elderly_service.py:239 | a heart rate that is not a number raises TypeError |
| ElderlyService.JsonVitalsAgree | app/plugins/elderly_service.py:239-240 | on numbers, the JSON comparisons are the same rule as the protobuf path |
| ElderlyService.XmlPatientAlerts | app/plugins/elderly_service.py:256-278 | no alert unless the lower-cased history mentions diabetes or heart_disease; when it does, exactly one alert for the patient, failing exactly when the patient id is not a string or the raw data cannot be encoded; every alert is HIGH_RISK_PATIENT, info, score 0.6, with the fixed high-risk message |
| ElderlyService.CsvSensorAlerts | app/plugins/elderly_service.py:280-306 | no alert for missing or empty readings; readings that are not a list raise; a non-empty list gives the counting rule on its items, which raises when a heart rate or SpO2 value does not convert to a float; otherwise no alert when at most half of the readings exceed the heart-rate threshold, and the pattern alert when more than half do |
| ElderlyService.CsvReadingsAlerts | app/plugins/elderly_service.py:289-306 | on a list of readings: a heart rate or SpO2 value that does not convert raises; when both counts convert, no alert when at most half of the readings exceed the heart-rate threshold, and exactly the pattern alert for that count when more than half do |
| ElderlyService.CsvPatternAlert | app/plugins/elderly_service.py:292-303 | the pattern alert succeeds exactly when its summary and sample data encode as JSON; it is one PATTERN_ANOMALY_CSV warning with score 0.8 for csv_patient, whose message gives the count of elevated readings out of all readings |
| ElderlyService.CountReadings | app/plugins/elderly_service.py:289-290 | the count is at most the number of readings and succeeds exactly when every reading is a dictionary whose value converts to a float |
| ElderlyService.GenericJsonAlerts | app/plugins/elderly_service.py:308-327 | no alert unless the lower-cased text mentions emergency or urgent; when it does, exactly one warning alert with score 0.7, failing exactly when the data cannot be encoded; every alert is EMERGENCY_KEYWORD_DETECTED for generic_patient, with the fixed keyword message |
| ElderlyService.GenerateAlerts | app/plugins/elderly_service.py:134-170 | dispatch on the parsed kind: sensor and medication rules for those messages at the configured thresholds; a dictionary typed vitals_json, patient_xml or sensor_csv goes to the JSON vitals, XML patient or CSV sensor rule, any other dictionary to the generic JSON rule; nothing for other messages or non-dictionaries |
| ElderlyService.Contacts | app/plugins/elderly_service.py:329-361 | two contacts for the entity, the first primary |
| ElderlyService.Channel | app/plugins/elderly_service.py:423-431 | CALL for emergency, SMS for critical, otherwise the upper-cased preferred method |
| ElderlyService.NotificationType | app/plugins/elderly_service.py:433-438 | EMERGENCY_ALERT exactly for emergency or critical, HEALTH_UPDATE otherwise |
| ElderlyService.NotificationMessage | app/plugins/elderly_service.py:440-451 | the fall, vitals and medication texts naming the patient, or HEALTH UPDATE; every text but the fall text ends with the alert's message |
| ElderlyService.SuccessRate | app/plugins/elderly_service.py:453-462 | CALL 0.85, SMS 0.95, EMAIL 0.98, PUSH 0.90, any other channel 0.9 |
| ElderlyService.NotificationFor | app/plugins/elderly_service.py:375-384 | a notification carrying the alert's id and timestamp, the contact, the chosen channel, type and message, sent according to the channel's success rate |
| ElderlyService.ProcessAlert | app/plugins/elderly_service.py:363-388 | the nested loop gives, for each affected entity in order, one notification per contact in order: twice as many notifications as entities |
| ElderlyService.AlertNotifications | app/plugins/elderly_service.py:368-386 | twice as many notifications as affected entities, in entity-then-contact order |
| ElderlyService.NotificationsReachBothContacts | app/plugins/elderly_service.py:368-386 | each entity's pair of notifications goes to contact_001 and then contact_002 |
| ElderlyService.Summary | app/plugins/elderly_service.py:390-421 | exactly the five metrics; total and sent are the list lengths; critical and emergency count the alerts of that severity and together are at most total; successful counts the notifications sent successfully and is at most sent; the text is the "no alerts" text exactly when there are none, and otherwise gives the alert count, the emergency and critical counts and the notification count |
| ElderlyService.PluginValidates | app/plugins/elderly_service.py:27-41 | the elderly plugin passes the registry's validation |
| ElderlyService.JsonVitalsPacketHasNoAlerts | app/registry.py:111-138 | through the registry, a vitals_json packet carrying json_data yields no alerts |
| AgricultureService.ParsePacket | app/plugins/agriculture_service.py:39-62 | an unsupported data type gives None; a crop reading parses when its payload decodes, otherwise None; farming_event and farm_contact give the decoded message exactly when the payload decodes, otherwise None |
| AgricultureService.Thresholds | app/plugins/agriculture_service.py:68-74 | drought 20.0 and frost 2.0 unless the configuration sets them |
| AgricultureService.DroughtAlert | app/plugins/agriculture_service.py:78-91 | critical below 10 % moisture with score 0.9, else warning with 0.7, for the field, with the low-moisture message giving the formatted moisture level |
| AgricultureService.FrostAlert | app/plugins/agriculture_service.py:94-107 | always critical with score 0.95, for the field, with the frost message giving the formatted temperature in degrees Celsius |
| AgricultureService.NutrientAlert | app/plugins/agriculture_service.py:110-125 | always warning with score 0.6, for the field, with the message giving the three formatted nutrient levels |
| AgricultureService.CropAlerts | app/plugins/agriculture_service.py:76-127 | at most three alerts, one per rule that fires, drought then frost then nutrient, each for the field with the reading's timestamp and the next uuid |
| AgricultureService.CropAlertsCounts | app/plugins/agriculture_service.py:76-127 | each rule contributes exactly one alert of its type when it fires and none otherwise |
| AgricultureService.GenerateCropAlerts | app/plugins/agriculture_service.py:76-125 | the sequential appends equal CropAlerts |
| AgricultureService.GenerateAlerts | app/plugins/agriculture_service.py:64-127 | no alerts for anything but a crop reading; otherwise CropAlerts at the configured thresholds |
| AgricultureService.Contacts | app/plugins/agriculture_service.py:129-159 | two contacts for the field, the first primary |
| AgricultureService.Channel | app/plugins/agriculture_service.py:219-224 | SMS for critical, otherwise the upper-cased preferred method |
| AgricultureService.NotificationType | app/plugins/agriculture_service.py:226-231 | URGENT_FARM_ALERT exactly for critical, FARM_UPDATE otherwise |
| AgricultureService.NotificationMessage | app/plugins/agriculture_service.py:233-244 | the drought, frost and fertiliser texts naming the field, or FARM ALERT; every text ends with the alert's message |
| Messages.NamedEntity | app/plugins/agriculture_service.py:235 | the first affected entity, or Unknown when there is none, as both plugins' message builders compute it (also app/plugins/elderly_service.py:442) |
| AgricultureService.SuccessRate | app/plugins/agriculture_service.py:246-249 | SMS 0.95, EMAIL 0.98, CALL 0.85, any other channel 0.9 |
| AgricultureService.NotificationFor | app/plugins/agriculture_service.py:171-180 | a notification carrying the alert's id and timestamp, the contact, the chosen channel, type and message, the next uuid, sent according to the channel's success rate |
| AgricultureService.ProcessAlert | app/plugins/agriculture_service.py:161-184 | the nested loop gives one notification per affected field and contact, in order |
| AgricultureService.AlertNotifications | app/plugins/agriculture_service.py:165-182 | twice as many notifications as affected fields |
| AgricultureService.NotificationsReachFarmTeam | app/plugins/agriculture_service.py:165-182 | each field's pair goes to the farmer and then the agronomist, with the alert's id and timestamp, by SMS when critical and otherwise by SMS and EMAIL |
| AgricultureService.Summary | app/plugins/agriculture_service.py:186-217 | exactly the five metrics; drought, frost and nutrient counts are the counts of those exact types and sum to at most total; the "no alerts" text exactly when there are none, and otherwise the text giving the alert count, the drought and frost counts and the notification count |
| AgricultureService.PluginValidates | app/plugins/agriculture_service.py:24-37 | the agriculture plugin passes the registry's validation |
| AgricultureService.UnsupportedPacketHasNoAlerts | app/registry.py:111-138 | through the registry, a packet of an unsupported type yields no alerts |
| AgricultureService.RoutedCropAlerts | app/registry.py:111-138 | through the registry, a crop packet yields the crop alerts, each with the packet's app id and packet id |
| Adapter.CheckAlertSeverity | app/adapter.py:52-61 | the counting loop equals SeverityDistribution |
| Adapter.SeverityDistribution | app/adapter.py:52-61 | exactly the keys info, warning, critical and emergency, each counting the alerts whose lower-cased severity matches; the counts sum to at most the number of alerts |
| Adapter.Bump | app/adapter.py:82 | incrementing a counter adds one to that key, appending a new key, and changes no other count |
| Adapter.Tally | app/adapter.py:79-87 | a counter whose keys are the distinct values seen, whose counts are their multiplicities, summing to the list length |
| Adapter.CountAlertTypes | app/adapter.py:79-82 | the alert-type loop equals Tally of the alert types |
| Adapter.CountChannels | app/adapter.py:84-87 | the channel loop equals Tally of the channels |
| Adapter.AppAlerts | app/adapter.py:66 | exactly the alerts of the application |
| Adapter.AppAlertsConcat | app/adapter.py:66 | the filter distributes over concatenation, so it keeps order and multiplicity |
| Adapter.AppAlertsSingle | app/adapter.py:66 | one alert is kept exactly when its app id matches |
| Adapter.AppNotifications | app/adapter.py:67 | exactly the notifications of the application |
| Adapter.AppNotificationsConcat | app/adapter.py:67 | the filter distributes over concatenation |
| Adapter.AppNotificationsSingle | app/adapter.py:67 | one notification is kept exactly when its app id matches |
| Adapter.StatisticsOf | app/adapter.py:64-89 | total alerts, total notifications and successful notifications count only the application's own items; successful counts those sent successfully |
| Adapter.StatisticsCounts | app/adapter.py:64-89 | the type counts sum to total alerts and count each type's occurrences, the channel counts likewise for notifications; successful is at most total notifications; the severity histogram is that of the application's alerts |
| Adapter.GetApplicationStatistics | app/adapter.py:64-89 | the method equals StatisticsOf |
| Adapter.RaisedAlertIsCounted | app/adapter.py:64-89 | an application that raised an alert has at least one alert in its statistics |
| Adapter.GetSystemOverview | app/adapter.py:92-107 | the totals are the list lengths; the overall severity is the distribution of all alerts; the applications are keyed by exactly the alerts' app ids, each with its statistics |
| Adapter.EntityAlerts | app/adapter.py:46 | exactly the application's alerts that name the entity |
| Adapter.EntityAlertsConcat | app/adapter.py:46 | the filter distributes over concatenation |
| Adapter.EntityAlertsSingle | app/adapter.py:46 | one alert is kept exactly when its app id matches and it names the entity |
| Adapter.GenerateApplicationSummary | app/adapter.py:35-49 | None exactly for an unregistered app; otherwise the plugin's summary of the entity's alerts and the application's notifications |
| Adapter.ElderlySummaryIsFiltered | app/adapter.py:35-49 | for the elderly plugin, the summary holds only that app's alerts naming the entity and only that app's notifications |
| Adapter.SensorToAlert | app/adapter.py:111-130 | a legacy alert exactly when a fall is detected or vitals are abnormal at the default thresholds; the fall alert comes first |
| Adapter.MedicationToAlert | app/adapter.py:133-152 | a legacy alert exactly when the medication was not taken |
| Adapter.LegacyOf | app/adapter.py:121-127 | the legacy alert copies type, message, score, id and timestamp and takes the first entity or "" |
| Adapter.FamilyCommunicationToNotification | app/adapter.py:155-172 | CALL or SMS becomes EMERGENCY_ALERT with an alert id and WELLNESS_CHECK without; anything else DAILY_UPDATE; method, message and success copied |
| Adapter.FailedCommunications | app/adapter.py:178 | exactly the unsuccessful communications |
| Adapter.FailedCommunicationsConcat | app/adapter.py:178 | the filter distributes over concatenation |
| Adapter.FailedCommunicationsSingle | app/adapter.py:178 | one communication is kept exactly when it failed |
| Adapter.ContactFailedAlert | app/adapter.py:181-187 | the FAMILY_CONTACT_FAILED alert with score 0.8, the communication's patient and timestamp, a fresh uuid, and a message naming the communication type |
| Adapter.ContactStatusAlerts | app/adapter.py:175-190 | one FAMILY_CONTACT_FAILED alert with score 0.8 per failed communication, in order, with its patient and timestamp |
| Adapter.CheckFamilyContactStatus | app/adapter.py:175-190 | the appending loop equals ContactStatusAlerts |
| Adapter.AllSuccessfulNoAlerts | app/adapter.py:175-190 | when every communication succeeded there is no alert |
| Adapter.ShouldNotifyEmergencyContacts | app/adapter.py:193-196 | true exactly for FALL or VITALS_ANOMALY with score at least 0.7: never for another type or a lower score |
| Adapter.FallAlertIsNotEscalated | app/adapter.py:193-196 | a detected fall's legacy alert is FALL_DETECTED, which the escalation rule does not recognise |
| Adapter.AbnormalVitalsAreEscalated | app/adapter.py:193-196 | a vitals alert without a fall is always escalated |
| Adapter.Present | app/adapter.py:203 | exactly the alerts that are present |
| Adapter.PresentConcat | app/adapter.py:203 | the filter distributes over concatenation |
| Adapter.PresentSingle | app/adapter.py:203 | one alert is kept exactly when it is present |
| Adapter.BuildCareSummary | app/adapter.py:199-214 | the present alerts, the notifications or none, and a text stating both counts |
| FamilyService.FamilyService.constructor | app/family_service.py:17-18 | the log starts empty |
| FamilyService.GetEmergencyContacts | app/family_service.py:20-24 | the on-alert contacts, or all contacts when not filtering |
| FamilyService.NotifyOnAlert | app/family_service.py:23 | exactly the contacts with notify-on-alert set |
| FamilyService.NotifyOnAlertConcat | app/family_service.py:23 | the filter distributes over concatenation |
| FamilyService.NotifyOnAlertSingle | app/family_service.py:23 | one contact is kept exactly when notify-on-alert is set |
| FamilyService.GetPrimaryContact | app/family_service.py:26-31 | the first primary contact, or None exactly when no contact is primary |
| FamilyService.FamilyService.SendEmergencyAlert | app/family_service.py:33-59 | appends exactly the returned communication to the log |
| FamilyService.EmergencyCommunication | app/family_service.py:33-59 | the communication names the patient, the contact, now, the method and the alert id, carries EmergencyMessage, and succeeds according to the method's rate |
| FamilyService.EmergencyMessage | app/family_service.py:39-43 | EMERGENCY ALERT for the patient with the alert's message, plus the check-on-them advice for FALL and the abnormal-vitals advice for VITALS_ANOMALY |
| FamilyService.SuccessRate | app/family_service.py:153-164 | CALL 0.85, SMS 0.95, EMAIL 0.98, VISIT 1.0, any other method 0.9 |
| FamilyService.FamilyService.SendDailyUpdate | app/family_service.py:61-85 | appends exactly the returned communication to the log |
| FamilyService.DailyUpdate | app/family_service.py:61-85 | an EMAIL without alert id, succeeding with rate 0.98 |
| FamilyService.DailyUpdateMessage | app/family_service.py:67-71 | the "all systems normal" text exactly when the summary has no alerts, and otherwise the text giving the number of alerts |
| FamilyService.FamilyService.ScheduleWellnessCheck | app/family_service.py:87-104 | appends exactly the returned communication to the log |
| FamilyService.WellnessCheck | app/family_service.py:87-104 | a CALL at the check time, without alert id, whose message names the patient and the check time to the minute, succeeding with rate 0.85 |
| FamilyService.FamilyService.ProcessAlertsForFamilyNotification | app/family_service.py:106-137 | the returned list is exactly what was appended to the log, and equals the communications of every alert in order |
| FamilyService.AlertCommsCount | app/family_service.py:112-135 | an alert not worth notifying sends nothing; otherwise one to the primary contact if there is one, plus one per non-primary on-alert contact when the score is at least 0.9 |
| FamilyService.PrimaryComms | app/family_service.py:115-123 | one communication to the primary contact by the preferred method when a primary exists |
| FamilyService.AlertComms | app/family_service.py:113-135 | nothing for an alert not worth notifying; otherwise the primary contact's communication first, and only that when the score is under 0.9; every communication names the patient and the alert |
| FamilyService.UrgentAlertComms | app/family_service.py:125-135 | an alert worth notifying with score at least 0.9 gives the primary communication followed by the escalation texts |
| FamilyService.AllAlertComms | app/family_service.py:112-135 | every communication returned names the record's patient |
| FamilyService.AllAlertCommsSnoc | app/family_service.py:112-135 | one more alert appends its communications, numbered after those already sent |
| FamilyService.NonPrimary | app/family_service.py:127-128 | exactly the contacts that are not primary |
| FamilyService.NonPrimaryConcat | app/family_service.py:127-128 | the filter distributes over concatenation |
| FamilyService.NonPrimarySingle | app/family_service.py:127-128 | one contact is kept exactly when it is not primary |
| FamilyService.EscalationReachesNonPrimary | app/family_service.py:126-135 | one SMS per non-primary contact, in order, with the alert id |
| FamilyService.EscalationTexts | app/family_service.py:127-135 | every escalation text is an SMS about the patient and the alert carrying EmergencyMessage, and the i-th succeeds by the i-th draw at rate 0.95 |
| FamilyService.FamilyService.Escalate | app/family_service.py:127-135 | the inner loop returns EscalationComms and appends exactly it to the log |
| FamilyService.FamilyService.NotifyPrimary | app/family_service.py:115-123 | returns PrimaryComms and appends exactly it to the log |
| FamilyService.FamilyService.NotifyFamily | app/family_service.py:113-135 | one turn of the alert loop returns AlertComms and appends exactly it to the log |
| FamilyService.QuietAlertsSendNothing | app/family_service.py:112-135 | alerts none of which is worth notifying send nothing |
| FamilyService.SameRuleAsAdapter | app/family_service.py:139-142 | the family rule is the adapter's escalation rule |
| FamilyService.ShouldNotifyFamily | app/family_service.py:139-142 | true exactly for FALL or VITALS_ANOMALY with score at least 0.7: never for another type or a lower score |
| FamilyService.PreferredDeliveryMethod | app/family_service.py:144-151 | CALL for FALL, SMS for VITALS_ANOMALY, EMAIL otherwise |

## Left out

- Protobuf wire format: decoding a payload is an oracle (`decodeSensorReading`, `decodes`). `SerializeToString`, `ParseFromString` and the proto-to-dict helpers are not modelled.
- JSON, YAML and CSV libraries, ElementTree parsing and pretty-printing, float formatting and `strftime`: oracles in `Libs`. The CSV model works on rows of string cells, and the XML model on an element tree.
- SHA-256 is an oracle whose digest has 64 characters.
- Clock, uuid4 and random are inputs in `Env`, and one call takes one instant. The success simulation becomes `env.random(k) < rate`.
- Logging and `print` calls are left out.
- The module-level registry singleton, its wrappers and the adapter's `process_data_packet` and `process_alert` wrappers are left out. The model uses an explicit registry.
- app/storage.py, cli.py, app/main.py and app/ingest.py are not part of this model: file I/O, argument parsing and demo data.
- The `create_*_data_packet` helpers of both plugins and `create_sample_emergency_contacts` only copy fields into protobuf messages, so they are left out.
- Aliasing is not captured: the registry rewrites each alert and notification in place, and the model returns the rewritten values.
- `lower()` and `upper()` map ASCII letters only.
- Message texts that embed a float or a timestamp use the formatting oracles of `Libs` (`formatNumber`, `formatMinute`). The messages are stated exactly in terms of those oracles; the digits they print are not.
- Protobuf floats are 32-bit, but real numbers are used here; a threshold comparison can differ at the last bit.
- Serializer.XmlElementToDict: an element with non-blank text and children raises TypeError, as the code does, rather than being excluded.
- Serializer.CsvToList: `csv.DictReader` puts the extra cells of a row longer than its header under a `None` key. The model drops them.
- `if alert` in the family service is true for every protobuf alert, so it is not modelled.
