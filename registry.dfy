// The plugin registry of app/registry.py: a dictionary from application id
// to plugin, and the two routing pipelines (packet -> parse -> alerts and
// alert -> notifications) that turn every failure into an empty result.

module Registry {
  import opened PyRuntime
  import opened Messages
  import opened Externals

  /**
   * What a plugin's `parse_data_packet` can return: a Python value (`PyValue(VNone)`
   * is `None`), or one of the protobuf messages the plugins decode.  Messages
   * whose content no rule reads are kept by their type name only.
   */
  datatype Parsed =
    | PyValue(v: Value)
    | PSensorReading(reading: SensorReading)
    | PMedicationEvent(event: MedicationEvent)
    | PCropSensorReading(crop: CropSensorReading)
    | PMessage(typeName: string)
  {
    predicate IsNone()
    {
      PyValue? && v.VNone?
    }
  }

  /**
   * A plugin: its three properties and its five operations.  An operation that
   * raises returns `Raised`; the clock, uuid4 and random draws of one call are
   * its `Env` argument.
   */
  datatype Plugin = Plugin(
    appId: string,
    appName: string,
    supportedDataTypes: seq<string>,
    parse: (Env, DataPacket) -> Result<Parsed>,
    generateAlerts: (Env, Parsed, Option<ApplicationConfig>) -> Result<seq<Alert>>,
    getContacts: string -> seq<Contact>,
    processAlert: (Env, Alert) -> Result<seq<Notification>>,
    generateSummary: (Env, string, string, seq<Alert>, seq<Notification>) -> ApplicationSummary)

  /** The `Application` message `get_applications` builds for a plugin. */
  function ApplicationOf(p: Plugin): (a: Application)
    ensures a.appId == p.appId && a.appName == p.appName && a.dataTypes == p.supportedDataTypes
    ensures a.version == "1.0.0"
  {
    Application(p.appId, p.appName, "1.0.0", "Application plugin for " + p.appName, p.supportedDataTypes)
  }

  /**
   * The back-filling `generate_alerts` applies to each alert: the app id is
   * forced, an unset timestamp comes from the packet and an empty source
   * packet id becomes the packet's id.
   */
  function NormaliseAlert(a: Alert, packet: DataPacket): (r: Alert)
    ensures r.appId == packet.appId
    ensures r.timestamp == (if a.timestamp.seconds == 0 then packet.timestamp else a.timestamp)
    ensures r.sourcePacketId == (if a.sourcePacketId == "" then packet.packetId else a.sourcePacketId)
    ensures r.(appId := a.appId, timestamp := a.timestamp, sourcePacketId := a.sourcePacketId) == a
  {
    var a1 := a.(appId := packet.appId);
    var a2 := if a1.timestamp.seconds == 0 then a1.(timestamp := packet.timestamp) else a1;
    if a2.sourcePacketId == "" then a2.(sourcePacketId := packet.packetId) else a2
  }

  /** The back-filling `process_alert` applies to each notification. */
  function NormaliseNotification(n: Notification, alert: Alert): (r: Notification)
    ensures r.appId == alert.appId
    ensures r.timestamp == (if n.timestamp.seconds == 0 then alert.timestamp else n.timestamp)
    ensures r.alertId == (if n.alertId == "" then alert.alertId else n.alertId)
    ensures r.(appId := n.appId, timestamp := n.timestamp, alertId := n.alertId) == n
  {
    var n1 := n.(appId := alert.appId);
    var n2 := if n1.timestamp.seconds == 0 then n1.(timestamp := alert.timestamp) else n1;
    if n2.alertId == "" then n2.(alertId := alert.alertId) else n2
  }

  function NormaliseAlerts(raw: seq<Alert>, packet: DataPacket): (r: seq<Alert>)
    ensures |r| == |raw| && forall i :: 0 <= i < |raw| ==> r[i] == NormaliseAlert(raw[i], packet)
  {
    if raw == [] then [] else [NormaliseAlert(raw[0], packet)] + NormaliseAlerts(raw[1..], packet)
  }

  function NormaliseNotifications(raw: seq<Notification>, alert: Alert): (r: seq<Notification>)
    ensures |r| == |raw| && forall i :: 0 <= i < |raw| ==> r[i] == NormaliseNotification(raw[i], alert)
  {
    if raw == [] then [] else [NormaliseNotification(raw[0], alert)] + NormaliseNotifications(raw[1..], alert)
  }

  /** Back-filling twice is back-filling once. */
  lemma NormaliseAlertIdempotent(a: Alert, packet: DataPacket)
    ensures NormaliseAlert(NormaliseAlert(a, packet), packet) == NormaliseAlert(a, packet)
  {
    var r := NormaliseAlert(a, packet);
    assert r.(appId := a.appId, timestamp := a.timestamp, sourcePacketId := a.sourcePacketId) == a;
  }

  /** An alert whose core fields are already set only has its app id changed. */
  lemma NormaliseAlertKeepsSetFields(a: Alert, packet: DataPacket)
    requires a.timestamp.seconds != 0 && a.sourcePacketId != ""
    ensures NormaliseAlert(a, packet) == a.(appId := packet.appId)
  {
    var r := NormaliseAlert(a, packet);
    assert r.(appId := a.appId, timestamp := a.timestamp, sourcePacketId := a.sourcePacketId) == a;
  }

  /** The shape `validate_plugin` inspects: the value or absence of each attribute. */
  datatype Attribute = Missing | Data(v: Value) | Callable

  const RequiredMethods: seq<string> :=
    ["parse_data_packet", "generate_alerts", "get_contacts", "process_alert", "generate_summary"]

  /**
   * `validate_plugin`: the checks run in order and the first failing assertion
   * (or missing attribute) makes the answer False.  `attrs` is `getattr` on the plugin.
   */
  function ValidatePlugin(attrs: string -> Attribute): (ok: bool)
    ensures ok <==>
      && NonBlankString(attrs("app_id"))
      && NonBlankString(attrs("app_name"))
      && attrs("supported_data_types").Data?
      && attrs("supported_data_types").v.VList?
      && forall i :: 0 <= i < |RequiredMethods| ==> attrs(RequiredMethods[i]).Callable?
  {
    if !NonBlankString(attrs("app_id")) then false
    else if !NonBlankString(attrs("app_name")) then false
    else match attrs("supported_data_types")
      case Data(VList(_)) => MethodsCallable(attrs, RequiredMethods)
      case _ => false
  }

  /** `isinstance(x, str) and x.strip()` */
  predicate NonBlankString(a: Attribute)
  {
    a.Data? && a.v.VStr? && Strip(a.v.s) != ""
  }

  function MethodsCallable(attrs: string -> Attribute, names: seq<string>): (ok: bool)
    ensures ok <==> forall i :: 0 <= i < |names| ==> attrs(names[i]).Callable?
  {
    if names == [] then true
    else attrs(names[0]).Callable? && MethodsCallable(attrs, names[1..])
  }

  function StrList(ss: seq<string>): (v: Value)
    ensures v.VList?
  {
    VList(seq(|ss|, i requires 0 <= i < |ss| => VStr(ss[i])))
  }

  /** The attributes of a plugin record: its properties and its five callable operations. */
  function AttributesOf(p: Plugin): string -> Attribute
  {
    name =>
      if name in RequiredMethods then Callable
      else if name == "app_id" then Data(VStr(p.appId))
      else if name == "app_name" then Data(VStr(p.appName))
      else if name == "supported_data_types" then Data(StrList(p.supportedDataTypes))
      else Missing
  }

  /** Every plugin record passes validation exactly when its id and name are not blank. */
  lemma ValidateRecord(p: Plugin)
    ensures ValidatePlugin(AttributesOf(p)) <==> Strip(p.appId) != "" && Strip(p.appName) != ""
  {
    // the property names differ in length from every method name
    assert forall i :: 0 <= i < |RequiredMethods| ==> 12 <= |RequiredMethods[i]| <= 17;
    assert |"app_id"| == 6 && |"app_name"| == 8 && |"supported_data_types"| == 20;
    var attrs := AttributesOf(p);
    assert attrs("app_id") == Data(VStr(p.appId));
    assert attrs("app_name") == Data(VStr(p.appName));
    assert attrs("supported_data_types") == Data(StrList(p.supportedDataTypes));
    assert MethodsCallable(attrs, RequiredMethods);
  }

  /** Removing one element of a sequence without repetitions. */
  lemma RemoveAt(s: seq<string>, i: nat)
    requires Distinct(s) && i < |s|
    ensures Distinct(s[..i] + s[i + 1..])
    ensures forall k :: k in s[..i] + s[i + 1..] <==> k in s && k != s[i]
  {
    var t := s[..i] + s[i + 1..];
    forall k ensures k in t <==> k in s && k != s[i] {
      if k in s && k != s[i] {
        var j :| 0 <= j < |s| && s[j] == k;
        if j < i {
          assert t[j] == k;
        } else {
          assert t[j - 1] == k;
        }
      }
      if k in t {
        var j :| 0 <= j < |t| && t[j] == k;
        var jj := if j < i then j else j + 1;
        assert s[jj] == k;
      }
    }
    forall a, b | 0 <= a < b < |t| ensures t[a] != t[b] {
      var aa := if a < i then a else a + 1;
      var bb := if b < i then b else b + 1;
      assert t[a] == s[aa] && t[b] == s[bb];
    }
  }

  /**
   * `PluginRegistry`: the plugins keyed by app id, with the dictionary's
   * insertion order kept in `order`.
   */
  class PluginRegistry {
    var plugins: map<string, Plugin>
    var order: seq<string>

    ghost predicate Valid()
      reads this
    {
      && Distinct(order)
      && (forall k :: k in plugins <==> k in order)
      && (forall k :: k in plugins ==> plugins[k].appId == k)
    }

    constructor ()
      ensures plugins == map[] && order == []
      ensures Valid()
    {
      plugins := map[];
      order := [];
    }

    /** `register_plugin`: a plugin registered again replaces the old one in place. */
    method RegisterPlugin(p: Plugin)
      requires Valid()
      modifies this
      ensures Valid()
      ensures plugins == old(plugins)[p.appId := p]
      ensures order == if p.appId in old(plugins) then old(order) else old(order) + [p.appId]
      ensures GetPlugin(p.appId) == Some(p)
      ensures forall k :: k != p.appId ==> GetPlugin(k) == old(GetPlugin(k))
    {
      if p.appId !in plugins {
        order := order + [p.appId];
      }
      plugins := plugins[p.appId := p];
    }

    /** `unregister_plugin`: removes that key and nothing else; an unknown id changes nothing. */
    method UnregisterPlugin(appId: string)
      requires Valid()
      modifies this
      ensures Valid()
      ensures plugins == old(plugins) - {appId}
      ensures old(appId !in plugins) ==> order == old(order)
      ensures forall k :: k in order <==> k in old(order) && k != appId
      ensures GetPlugin(appId) == None
      ensures forall k :: k != appId ==> GetPlugin(k) == old(GetPlugin(k))
    {
      if appId in plugins {
        var i :| 0 <= i < |order| && order[i] == appId;
        RemoveAt(order, i);
        order := order[..i] + order[i + 1..];
        plugins := plugins - {appId};
      }
    }

    /** `get_plugin` */
    function GetPlugin(appId: string): (r: Option<Plugin>)
      reads this
      ensures r.None? <==> appId !in plugins
      ensures r.Some? ==> r.value == plugins[appId]
    {
      if appId in plugins then Some(plugins[appId]) else None
    }

    /** `list_plugins`: every registered id, once each, in registration order. */
    function ListPlugins(): (ids: seq<string>)
      reads this
      requires Valid()
      ensures Distinct(ids)
      ensures forall k :: k in ids <==> GetPlugin(k).Some?
    {
      order
    }

    /** `get_applications`: one Application message per plugin, in registration order. */
    method GetApplications() returns (apps: seq<Application>)
      requires Valid()
      ensures |apps| == |ListPlugins()|
      ensures forall i :: 0 <= i < |apps| ==>
        apps[i] == ApplicationOf(plugins[order[i]]) && apps[i].appId == ListPlugins()[i]
    {
      apps := [];
      var i := 0;
      while i < |order|
        invariant 0 <= i <= |order|
        invariant |apps| == i
        invariant forall j :: 0 <= j < i ==> apps[j] == ApplicationOf(plugins[order[j]])
      {
        var p := plugins[order[i]];
        apps := apps + [ApplicationOf(p)];
        i := i + 1;
      }
    }

    /** `route_data_packet`: the parse result, or None when nothing can parse the packet. */
    function RouteDataPacket(env: Env, packet: DataPacket): (r: Parsed)
      reads this
      ensures packet.appId !in plugins ==> r.IsNone()
      ensures packet.appId in plugins && plugins[packet.appId].parse(env, packet).Ok? ==>
        r == plugins[packet.appId].parse(env, packet).value
      ensures packet.appId in plugins && plugins[packet.appId].parse(env, packet).Raised? ==> r.IsNone()
    {
      match GetPlugin(packet.appId)
      case None => PyValue(VNone)
      case Some(p) =>
        match p.parse(env, packet)
        case Raised(_) => PyValue(VNone)
        case Ok(parsed) => parsed
    }

    /** The alerts `generate_alerts` returns; every failure stage yields []. */
    function AlertsFor(env: Env, packet: DataPacket, config: Option<ApplicationConfig>): (r: seq<Alert>)
      reads this
      ensures packet.appId !in plugins ==> r == []
      ensures packet.appId in plugins ==>
        var p := plugins[packet.appId];
        && (p.parse(env, packet).Raised? ==> r == [])
        && (p.parse(env, packet).Ok? && p.parse(env, packet).value.IsNone() ==> r == [])
        && (p.parse(env, packet).Ok? && !p.parse(env, packet).value.IsNone() ==>
              var alerts := p.generateAlerts(env, p.parse(env, packet).value, config);
              && (alerts.Raised? ==> r == [])
              && (alerts.Ok? ==> r == NormaliseAlerts(alerts.value, packet)))
    {
      match GetPlugin(packet.appId)
      case None => []
      case Some(p) =>
        match p.parse(env, packet)
        case Raised(_) => []
        case Ok(parsed) =>
          if parsed.IsNone() then []
          else match p.generateAlerts(env, parsed, config)
            case Raised(_) => []
            case Ok(raw) => NormaliseAlerts(raw, packet)
    }

    /**
     * `generate_alerts`: the plugin's alerts, in its order, back-filled one by
     * one; [] when no plugin is registered, the parse returns None or anything raises.
     */
    method GenerateAlerts(env: Env, packet: DataPacket, config: Option<ApplicationConfig>)
      returns (alerts: seq<Alert>)
      ensures alerts == AlertsFor(env, packet, config)
      ensures packet.appId !in plugins ==> alerts == []
      ensures packet.appId in plugins ==>
        var p := plugins[packet.appId];
        if p.parse(env, packet).Raised? || p.parse(env, packet).value.IsNone() then alerts == []
        else if p.generateAlerts(env, p.parse(env, packet).value, config).Raised? then alerts == []
        else
          var raw := p.generateAlerts(env, p.parse(env, packet).value, config).value;
          && |alerts| == |raw|
          && forall i :: 0 <= i < |raw| ==>
            && alerts[i].appId == packet.appId
            && alerts[i].timestamp == (if raw[i].timestamp.seconds == 0 then packet.timestamp else raw[i].timestamp)
            && alerts[i].sourcePacketId == (if raw[i].sourcePacketId == "" then packet.packetId else raw[i].sourcePacketId)
            && alerts[i].(appId := raw[i].appId, timestamp := raw[i].timestamp,
                          sourcePacketId := raw[i].sourcePacketId) == raw[i]
    {
      var plugin := GetPlugin(packet.appId);
      if plugin.None? {
        return [];
      }
      var p := plugin.value;
      var parsed := p.parse(env, packet);
      if parsed.Raised? || parsed.value.IsNone() {
        return [];
      }
      var raw := p.generateAlerts(env, parsed.value, config);
      if raw.Raised? {
        return [];
      }
      alerts := raw.value;
      var i := 0;
      while i < |alerts|
        invariant 0 <= i <= |alerts| == |raw.value|
        invariant forall j :: 0 <= j < i ==> alerts[j] == NormaliseAlert(raw.value[j], packet)
        invariant forall j :: i <= j < |alerts| ==> alerts[j] == raw.value[j]
      {
        var a := alerts[i].(appId := packet.appId);
        if a.timestamp.seconds == 0 {
          a := a.(timestamp := packet.timestamp);
        }
        if a.sourcePacketId == "" {
          a := a.(sourcePacketId := packet.packetId);
        }
        alerts := alerts[i := a];
        i := i + 1;
      }
      assert alerts == NormaliseAlerts(raw.value, packet);
    }

    /** The notifications `process_alert` returns; a missing plugin or an exception yields []. */
    function NotificationsFor(env: Env, alert: Alert): (r: seq<Notification>)
      reads this
      ensures alert.appId !in plugins ==> r == []
      ensures alert.appId in plugins && plugins[alert.appId].processAlert(env, alert).Raised? ==> r == []
      ensures alert.appId in plugins && plugins[alert.appId].processAlert(env, alert).Ok? ==>
        r == NormaliseNotifications(plugins[alert.appId].processAlert(env, alert).value, alert)
    {
      match GetPlugin(alert.appId)
      case None => []
      case Some(p) =>
        match p.processAlert(env, alert)
        case Raised(_) => []
        case Ok(raw) => NormaliseNotifications(raw, alert)
    }

    /**
     * `process_alert`: the plugin's notifications in its order, each forced to
     * the alert's app id and back-filled with its timestamp and id.
     */
    method ProcessAlert(env: Env, alert: Alert) returns (notifications: seq<Notification>)
      ensures notifications == NotificationsFor(env, alert)
      ensures alert.appId !in plugins ==> notifications == []
      ensures alert.appId in plugins ==>
        var p := plugins[alert.appId];
        if p.processAlert(env, alert).Raised? then notifications == []
        else
          var raw := p.processAlert(env, alert).value;
          && |notifications| == |raw|
          && forall i :: 0 <= i < |raw| ==>
            && notifications[i].appId == alert.appId
            && notifications[i].timestamp == (if raw[i].timestamp.seconds == 0 then alert.timestamp else raw[i].timestamp)
            && notifications[i].alertId == (if raw[i].alertId == "" then alert.alertId else raw[i].alertId)
            && notifications[i].(appId := raw[i].appId, timestamp := raw[i].timestamp,
                                 alertId := raw[i].alertId) == raw[i]
    {
      var plugin := GetPlugin(alert.appId);
      if plugin.None? {
        return [];
      }
      var raw := plugin.value.processAlert(env, alert);
      if raw.Raised? {
        return [];
      }
      notifications := raw.value;
      var i := 0;
      while i < |notifications|
        invariant 0 <= i <= |notifications| == |raw.value|
        invariant forall j :: 0 <= j < i ==> notifications[j] == NormaliseNotification(raw.value[j], alert)
        invariant forall j :: i <= j < |notifications| ==> notifications[j] == raw.value[j]
      {
        var n := notifications[i].(appId := alert.appId);
        if n.timestamp.seconds == 0 {
          n := n.(timestamp := alert.timestamp);
        }
        if n.alertId == "" {
          n := n.(alertId := alert.alertId);
        }
        notifications := notifications[i := n];
        i := i + 1;
      }
      assert notifications == NormaliseNotifications(raw.value, alert);
    }
  }
}
