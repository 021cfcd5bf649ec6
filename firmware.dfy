/**
 * What `main.cpp` and its older sibling `scale.cpp` share: the wake-up handling, the start
 * of the network services, `softReset`, the service check, `sleepOrDelay`, and `setup()`,
 * parameterised by the defaults in which the two files differ.
 */
module Firmware {
  import opened Machine
  import opened Nvs
  import SM = ScaleManager
  import Hx711
  import opened Global

  /** `TIME_TO_SLEEP`: seconds of deep sleep between two wake-ups. */
  const TimeToSleep: nat := 10
  /** The delay of a loop iteration that stays awake. */
  const AwakeDelayMs: nat := 50
  /** Seconds of deep sleep after the file system failed to mount. */
  const FsFailureSleep: nat := 5
  /** The pause after a timer wake-up, in milliseconds. */
  const TimerWakeDelayMs: nat := 2000

  /** `esp_sleep_get_wakeup_cause()`. */
  datatype WakeupCause = Ext0 | Ext1 | Timer | Touchpad | Ulp | Undefined

  /** The settings in which `setup()` of `main.cpp` and of `scale.cpp` differ. */
  datatype Defaults = Defaults(hostName: string, wifi: bool, ble: bool, dac: bool, mqtt: bool, ota: bool)

  /** `main.cpp`: host name "gaslevel", only Wi-Fi on, and over-the-air updates. */
  const MainDefaults: Defaults := Defaults("gaslevel", true, false, false, false, true)
  /** `scale.cpp`: host name "gas-scale", Wi-Fi, BLE and DAC on, no OTA. */
  const LegacyDefaults: Defaults := Defaults("gas-scale", true, true, true, false, false)

  /**
   * `sleepOrDelay()`: deep sleep for `TIME_TO_SLEEP` seconds, woken also by the button,
   * exactly when Wi-Fi, BLE and MQTT are all off; otherwise stay awake for 50 ms.
   */
  function SleepOrDelay(f: Flags): (e: Effect)
    ensures e.DeepSleep? <==> !f.wifi && !f.ble && !f.mqtt
    ensures e.DeepSleep? ==> e.seconds == TimeToSleep
    ensures !e.DeepSleep? ==> e == Delay(AwakeDelayMs)
  {
    if f.wifi || f.ble || f.mqtt then Delay(AwakeDelayMs) else DeepSleep(TimeToSleep)
  }

  /** What `print_wakeup_reason` does besides logging. */
  function WakeupEffects(cause: WakeupCause): seq<Effect> {
    if cause == Timer then [Delay(TimerWakeDelayMs)] else []
  }

  /** `print_wakeup_reason()`: a wake-up by the button pin (EXT0) counts as a button press. */
  method HandleWakeup(g: Globals, cause: WakeupCause) returns (effects: seq<Effect>)
    modifies g`buttonPressed
    ensures g.buttonPressed == (old(g.buttonPressed) || cause == Ext0)
    ensures effects == WakeupEffects(cause)
  {
    if cause == Ext0 {
      g.buttonPressed := true;
    }
    effects := WakeupEffects(cause);
  }

  /**
   * `initWifiAndServices()` with the flags `f`, the host name, and `ns` as the global
   * preferences handle shows it: Wi-Fi manager and web server (falling back to a soft AP
   * unless `enableSoftAp` is stored false), mDNS when Wi-Fi is on, and the MQTT client
   * prepared from the stored broker settings when MQTT is on. The port goes through the
   * client's 16-bit parameter.
   */
  function InitServices(f: Flags, ns: Namespace, hostName: string): (effects: seq<Effect>)
    ensures |effects| >= 1 && effects[0] == StartWifi(GetBool(ns, "enableSoftAp", true))
    ensures Mdns(hostName) in effects <==> f.wifi
    ensures effects[|effects| - 1].MqttPrepare? <==> f.mqtt
  {
    [StartWifi(GetBool(ns, "enableSoftAp", true))]
    + (if f.wifi then [Mdns(hostName)] else [])
    + (if f.mqtt then [MqttPrepare(GetString(ns, "mqttHost", "localhost"), GetUInt(ns, "mqttPort", 1883) % TWO_16,
                                   GetString(ns, "mqttTopic", "verges/gaslevel"),
                                   GetString(ns, "mqttUser", ""), GetString(ns, "mqttPass", ""))]
       else [])
  }

  /** Once the global handle is closed, the services start with the built-in broker defaults. */
  lemma ClosedHandleUsesDefaults(f: Flags, hostName: string)
    requires f.mqtt
    ensures MqttPrepare("localhost", 1883, "verges/gaslevel", "", "") in InitServices(f, map[], hostName)
    ensures InitServices(f, map[], hostName)[0] == StartWifi(true)
  {
    var e := InitServices(f, map[], hostName);
    assert e == [StartWifi(true)] + (if f.wifi then [Mdns(hostName)] else []) +
                [MqttPrepare("localhost", 1883, "verges/gaslevel", "", "")];
  }

  /** `softReset()`: shut the services down when Wi-Fi is on, then restart through deep sleep. */
  function SoftResetEffects(f: Flags): (effects: seq<Effect>)
    ensures |effects| >= 1 && effects[|effects| - 1] == SoftReset
    ensures StopServices in effects <==> f.wifi
  {
    (if f.wifi then [StopServices] else []) + [SoftReset]
  }

  /** What the button block does when the flag is `pressed`. */
  function ButtonEffects(pressed: bool, f: Flags, ns: Namespace, hostName: string): (effects: seq<Effect>)
    ensures !pressed ==> effects == []
    ensures pressed && f.wifi ==> effects == [RunSoftAp]
    ensures pressed && !f.wifi ==> effects == InitServices(f, ns, hostName) && !(RunSoftAp in effects)
  {
    if !pressed then [] else if f.wifi then [RunSoftAp] else InitServices(f, ns, hostName)
  }

  /**
   * The button block at the top of `loop()`: clear the flag; bring up a soft AP when Wi-Fi
   * is on, and start the services otherwise.
   */
  method HandleButton(g: Globals) returns (effects: seq<Effect>)
    modifies g`buttonPressed
    ensures !g.buttonPressed
    ensures effects == ButtonEffects(old(g.buttonPressed), g.Features(), g.preferences.Visible(), g.hostName)
  {
    effects := [];
    if g.buttonPressed {
      g.buttonPressed := false;
      if g.enableWifi {
        effects := [RunSoftAp];
      } else {
        effects := InitServices(g.Features(), g.preferences.Visible(), g.hostName);
      }
    }
  }

  /**
   * What the service block does: connect MQTT only when it is due, Wi-Fi is on and connected
   * in station mode, and MQTT is on but not connected.
   */
  function ServiceEffects(due: bool, f: Flags, wifiConnected: bool, staMode: bool, mqttConnected: bool)
    : (effects: seq<Effect>)
    ensures effects == [] || effects == [MqttConnect]
    ensures effects == [MqttConnect] <==> due && f.wifi && wifiConnected && staMode && f.mqtt && !mqttConnected
  {
    if due && f.wifi && wifiConnected && staMode && f.mqtt && !mqttConnected then [MqttConnect] else []
  }

  /**
   * The service block of `loop()`: at most once per `serviceInterval`, with the timestamp
   * taken on entry.
   */
  method ServiceCheck(g: Globals, now: uint64, wifiConnected: bool, staMode: bool, mqttConnected: bool)
    returns (effects: seq<Effect>)
    modifies g`lastServiceCheck
    ensures var due := Due(now, old(g.lastServiceCheck), ServiceInterval);
      && g.lastServiceCheck == (if due then now else old(g.lastServiceCheck))
      && effects == ServiceEffects(due, g.Features(), wifiConnected, staMode, mqttConnected)
  {
    effects := [];
    if Due(now, g.lastServiceCheck, ServiceInterval) {
      g.lastServiceCheck := now;
      if g.enableWifi && wifiConnected && staMode {
        if g.enableMqtt && !mqttConnected {
          effects := [MqttConnect];
        }
      }
    }
  }

  // ---------------------------------------------------------------------------
  // setup()

  /** The namespace of manager `i`: "gas-scale", "s", and `i` in decimal. */
  function ManagerNamespace(i: nat): (name: string)
    ensures |name| > |NvsNamespace| && name[..|NvsNamespace|] == NvsNamespace
  {
    NvsNamespace + "s" + DecimalString(i)
  }

  /** Every manager has a namespace of its own, none of them the global one. */
  lemma NamespacesDistinct(i: nat, j: nat)
    ensures ManagerNamespace(i) != NvsNamespace
    ensures ManagerNamespace(i) == ManagerNamespace(j) <==> i == j
  {
    if i != j {
      var p := |NvsNamespace| + 1;
      DecimalStringInjective(i, j);
      assert ManagerNamespace(i)[p..] == DecimalString(i);
      assert ManagerNamespace(j)[p..] == DecimalString(j);
    }
  }

  /** The stored host name, or the default when none (or an empty one) is stored. */
  function HostNameOf(ns: Namespace, d: Defaults): (h: string)
    ensures |d.hostName| > 0 ==> |h| > 0
    ensures GetString(ns, "hostName", "") != "" ==> h == GetString(ns, "hostName", "")
  {
    var stored := GetString(ns, "hostName", "");
    if stored == "" then d.hostName else stored
  }

  /** The namespace after `setup()` wrote the default host name back when none was stored. */
  function WithHostName(ns: Namespace, d: Defaults): Namespace {
    if GetString(ns, "hostName", "") == "" then ns["hostName" := StringVal(d.hostName)] else ns
  }

  /** The stored OTA password, or the decimal low 32 bits of the eFuse MAC when none is stored. */
  function OtaPassword(ns: Namespace, efuse: uint64): string {
    var stored := GetString(ns, "otaPassword", "");
    if stored == "" then DecimalString(ToUint32(efuse)) else stored
  }

  function WithOtaPassword(ns: Namespace, efuse: uint64): Namespace {
    if GetString(ns, "otaPassword", "") == "" then ns["otaPassword" := StringVal(OtaPassword(ns, efuse))] else ns
  }

  /** The flags as `setup()` loads them, before the force-Wi-Fi rule. */
  function LoadedFlags(ns: Namespace, d: Defaults): Flags {
    Flags(GetBool(ns, "enableWifi", d.wifi), GetBool(ns, "enableBle", d.ble),
          GetBool(ns, "enableDac", d.dac), GetBool(ns, "enableMqtt", d.mqtt))
  }

  /** The global namespace as `setup()` leaves it, starting from `ns`. */
  function SetupStore(ns: Namespace, d: Defaults, efuse: uint64): Namespace {
    var named := WithHostName(ns, d);
    if d.ota then WithOtaPassword(named, efuse) else named
  }

  /**
   * The effects of `setup()` between loading the settings and closing the handle, with `ns`
   * as the global handle showed it on entry (the host name write-back touches no key read here).
   */
  function SetupEffects(ns: Namespace, d: Defaults, efuse: uint64): seq<Effect> {
    var host := HostNameOf(ns, d);
    var f := LoadedFlags(ns, d);
    (if f.wifi then InitServices(f, ns, host) else [])
    + (if f.ble then [CreateBleServer(host)] else [])
    + (if d.ota then [Ota(host, OtaPassword(ns, efuse))] else [])
  }

  /** After a write-back the host name reads back as the one in use. */
  lemma HostNamePersisted(ns: Namespace, d: Defaults)
    ensures d.hostName != "" ==> GetString(WithHostName(ns, d), "hostName", "") == HostNameOf(ns, d)
  {
  }

  /**
   * A device with nothing stored: `main.cpp` comes up as "gaslevel" with only Wi-Fi (soft AP
   * fallback on) and OTA, and stores the host name and an OTA password from the eFuse MAC.
   */
  lemma FreshDeviceMain(efuse: uint64)
    ensures HostNameOf(map[], MainDefaults) == "gaslevel"
    ensures LoadedFlags(map[], MainDefaults) == Flags(true, false, false, false)
    ensures SetupEffects(map[], MainDefaults, efuse) ==
            [StartWifi(true), Mdns("gaslevel"), Ota("gaslevel", DecimalString(ToUint32(efuse)))]
    ensures SetupStore(map[], MainDefaults, efuse) ==
            map["hostName" := StringVal("gaslevel"), "otaPassword" := StringVal(DecimalString(ToUint32(efuse)))]
  {
  }

  /**
   * A device with nothing stored: `scale.cpp` comes up as "gas-scale" with Wi-Fi, BLE and DAC
   * on, and stores only the host name.
   */
  lemma FreshDeviceLegacy(efuse: uint64)
    ensures HostNameOf(map[], LegacyDefaults) == "gas-scale"
    ensures LoadedFlags(map[], LegacyDefaults) == Flags(true, true, true, false)
    ensures SetupEffects(map[], LegacyDefaults, efuse) ==
            [StartWifi(true), Mdns("gas-scale"), CreateBleServer("gas-scale")]
    ensures SetupStore(map[], LegacyDefaults, efuse) == map["hostName" := StringVal("gas-scale")]
  {
  }

  /** What `begin` of a manager depends on and may change. */
  datatype ManagerState = ManagerState(cal: SM.Calibration, lastMedian: int32, hw: Hx711.Hardware,
                                       sensorScale: real, sensorOffset: int32)

  function StateOf(m: SM.Manager): ManagerState
    reads m, m.hx711
  {
    ManagerState(m.Cal(), m.lastMedian, m.hx711.Hw(), m.hx711.scale, m.hx711.offset)
  }

  /**
   * `m` after `begin(name)` from state `s`: the namespace adopted; when the flash opens, the
   * stored calibration loaded (defaults for missing keys) and handed to the sensor;
   * otherwise the calibration and the sensor as they were.
   */
  ghost predicate Begun(m: SM.Manager, name: string, available: bool, stored: Namespace, s: ManagerState)
    reads m, m.hx711
  {
    && m.nvs == name && m.lastMedian == s.lastMedian && m.hx711.Hw() == s.hw
    && (available ==> m.Cal() == SM.Decode(stored) && m.hx711.scale == m.scale && m.hx711.offset == m.tare)
    && (!available ==> m.Cal() == s.cal && m.hx711.scale == s.sensorScale && m.hx711.offset == s.sensorOffset)
  }

  /** Begin every manager on its own namespace, in slot order. */
  method BeginManagers(g: Globals)
    requires g.Valid()
    modifies g.managers, g.Sensors(), g.Handles()
    ensures g.Valid()
    ensures forall i :: 0 <= i < |g.managers| ==>
      Begun(g.managers[i], ManagerNamespace(i), g.flash.available, g.flash.Contents(ManagerNamespace(i)),
            old(StateOf(g.managers[i])))
  {
    for i := 0 to |g.managers|
      invariant g.Valid()
      invariant forall j :: 0 <= j < i ==>
        Begun(g.managers[j], ManagerNamespace(j), g.flash.available, g.flash.Contents(ManagerNamespace(j)),
              old(StateOf(g.managers[j])))
      invariant forall j :: i <= j < |g.managers| ==>
        unchanged(g.managers[j]) && unchanged(g.managers[j].hx711) && unchanged(g.managers[j].preferences)
    {
      g.managers[i].Begin(ManagerNamespace(i));
    }
  }

  /** A put under one key leaves the reads of every other key as they were. */
  lemma PutKeepsOtherKeys(ns: Namespace, k: string, v: Value, key: string, default: Value)
    requires key != k
    ensures Lookup(ns[k := v], key, default) == Lookup(ns, key, default)
  {
  }

  /** The host name write-back leaves the four flags as they read. */
  lemma WriteBackKeepsFlags(ns: Namespace, d: Defaults)
    ensures LoadedFlags(WithHostName(ns, d), d) == LoadedFlags(ns, d)
  {
    if GetString(ns, "hostName", "") == "" {
      var v := StringVal(d.hostName);
      PutKeepsOtherKeys(ns, "hostName", v, "enableWifi", BoolVal(d.wifi));
      PutKeepsOtherKeys(ns, "hostName", v, "enableBle", BoolVal(d.ble));
      PutKeepsOtherKeys(ns, "hostName", v, "enableDac", BoolVal(d.dac));
      PutKeepsOtherKeys(ns, "hostName", v, "enableMqtt", BoolVal(d.mqtt));
    }
  }

  /** The host name write-back leaves the soft-AP flag and the broker settings as they read. */
  lemma WriteBackKeepsServices(ns: Namespace, d: Defaults, f: Flags, host: string)
    ensures InitServices(f, WithHostName(ns, d), host) == InitServices(f, ns, host)
  {
    if GetString(ns, "hostName", "") == "" {
      var v := StringVal(d.hostName);
      assert "mqttHost"[0] != "hostName"[0];
      PutKeepsOtherKeys(ns, "hostName", v, "enableSoftAp", BoolVal(true));
      PutKeepsOtherKeys(ns, "hostName", v, "mqttHost", StringVal("localhost"));
      PutKeepsOtherKeys(ns, "hostName", v, "mqttPort", UIntVal(1883));
      PutKeepsOtherKeys(ns, "hostName", v, "mqttTopic", StringVal("verges/gaslevel"));
      PutKeepsOtherKeys(ns, "hostName", v, "mqttUser", StringVal(""));
      PutKeepsOtherKeys(ns, "hostName", v, "mqttPass", StringVal(""));
    }
  }

  /** The host name and the OTA password live under keys that nothing else in `setup()` reads. */
  lemma WriteBacksKeepSettings(ns: Namespace, d: Defaults, efuse: uint64, f: Flags, host: string)
    ensures LoadedFlags(WithHostName(ns, d), d) == LoadedFlags(ns, d)
    ensures InitServices(f, WithHostName(ns, d), host) == InitServices(f, ns, host)
    ensures OtaPassword(WithHostName(ns, d), efuse) == OtaPassword(ns, efuse)
  {
    WriteBackKeepsFlags(ns, d);
    WriteBackKeepsServices(ns, d, f, host);
    if GetString(ns, "hostName", "") == "" {
      assert "otaPassword"[0] != "hostName"[0];
      PutKeepsOtherKeys(ns, "hostName", StringVal(d.hostName), "otaPassword", StringVal(""));
    }
  }

  /** Read the host name; when none is stored, take the default and write it back. */
  method LoadHostName(g: Globals, d: Defaults)
    requires g.preferences.flash == g.flash
    modifies g`hostName, g.flash
    ensures g.hostName == HostNameOf(old(g.preferences.Visible()), d)
    ensures g.flash.available == old(g.flash.available)
    ensures g.flash.data == if g.preferences.started
                            then old(g.flash.data)[g.preferences.ns := WithHostName(old(g.preferences.Visible()), d)]
                            else old(g.flash.data)
  {
    g.hostName := GetString(g.preferences.Visible(), "hostName", "");
    if g.hostName == "" {
      g.hostName := d.hostName;
      var written := g.preferences.Put("hostName", StringVal(g.hostName));
    }
  }

  /** Read the four flags, each with its default. */
  method LoadFlags(g: Globals, d: Defaults)
    modifies g`enableWifi, g`enableBle, g`enableDac, g`enableMqtt
    ensures g.Features() == LoadedFlags(g.preferences.Visible(), d)
  {
    var ns := g.preferences.Visible();
    g.enableWifi := GetBool(ns, "enableWifi", d.wifi);
    g.enableBle := GetBool(ns, "enableBle", d.ble);
    g.enableDac := GetBool(ns, "enableDac", d.dac);
    g.enableMqtt := GetBool(ns, "enableMqtt", d.mqtt);
  }

  /** The OTA set-up of `main.cpp`: a password is made from the eFuse MAC when none is stored. */
  method SetupOta(g: Globals, efuse: uint64) returns (e: Effect)
    requires g.preferences.flash == g.flash
    modifies g.flash
    ensures e == Ota(g.hostName, OtaPassword(old(g.preferences.Visible()), efuse))
    ensures g.flash.available == old(g.flash.available)
    ensures g.flash.data == if g.preferences.started
                            then old(g.flash.data)[g.preferences.ns := WithOtaPassword(old(g.preferences.Visible()), efuse)]
                            else old(g.flash.data)
  {
    var password := GetString(g.preferences.Visible(), "otaPassword", "");
    if password == "" {
      password := DecimalString(ToUint32(efuse));
      var written := g.preferences.Put("otaPassword", StringVal(password));
    }
    e := Ota(g.hostName, password);
  }

  /** Load the host name (with its write-back) and then the flags. */
  method LoadNameAndFlags(g: Globals, d: Defaults)
    requires g.preferences.flash == g.flash
    modifies g`hostName, g`enableWifi, g`enableBle, g`enableDac, g`enableMqtt, g.flash
    ensures var before := old(g.preferences.Visible());
      && g.hostName == HostNameOf(before, d)
      && g.Features() == LoadedFlags(before, d)
      && g.preferences.Visible() == (if g.preferences.started then WithHostName(before, d) else before)
      && g.flash.available == old(g.flash.available)
      && g.flash.data == if g.preferences.started
                         then old(g.flash.data)[g.preferences.ns := WithHostName(before, d)]
                         else old(g.flash.data)
  {
    ghost var before := g.preferences.Visible();
    LoadHostName(g, d);
    assert g.preferences.Visible() == if g.preferences.started then WithHostName(before, d) else before;
    LoadFlags(g, d);
    WriteBacksKeepSettings(before, d, 0, g.Features(), g.hostName);
  }

  /**
   * Load host name and flags through the global handle, start the enabled services, and
   * (in `main.cpp`) set up OTA. Every put is lost when the handle did not open.
   */
  method LoadSettings(g: Globals, d: Defaults, efuse: uint64) returns (effects: seq<Effect>)
    requires g.preferences.flash == g.flash
    modifies g`hostName, g`enableWifi, g`enableBle, g`enableDac, g`enableMqtt, g.flash
    ensures var before := old(g.preferences.Visible());
      && g.hostName == HostNameOf(before, d)
      && g.Features() == LoadedFlags(before, d)
      && effects == SetupEffects(before, d, efuse)
      && g.flash.available == old(g.flash.available)
      && g.flash.data == if g.preferences.started
                         then old(g.flash.data)[g.preferences.ns := SetupStore(before, d, efuse)]
                         else old(g.flash.data)
  {
    ghost var before, data := g.preferences.Visible(), g.flash.data;
    LoadNameAndFlags(g, d);
    ghost var named := g.preferences.Visible();
    WriteBacksKeepSettings(before, d, efuse, g.Features(), g.hostName);
    var services := if g.enableWifi then InitServices(g.Features(), g.preferences.Visible(), g.hostName) else [];
    var ble := if g.enableBle then [CreateBleServer(g.hostName)] else [];
    var ota: seq<Effect> := [];
    if d.ota {
      var e := SetupOta(g, efuse);
      ota := [e];
      if g.preferences.started {
        Overwrite(data, g.preferences.ns, named, SetupStore(before, d, efuse));
      }
    }
    effects := services + ble + ota;
  }

  /** Any manager that is not configured forces Wi-Fi on, for the web-based setup. */
  method ForceWifi(g: Globals)
    modifies g`enableWifi
    ensures g.enableWifi == (old(g.enableWifi) || exists i :: 0 <= i < |g.managers| && !g.managers[i].IsConfigured())
  {
    for i := 0 to |g.managers|
      invariant g.enableWifi == (old(g.enableWifi) || exists j :: 0 <= j < i && !g.managers[j].IsConfigured())
    {
      if !g.managers[i].IsConfigured() {
        g.enableWifi := true;
      }
    }
  }

  /**
   * The first half of `setup()` once the file system is mounted: open the global namespace
   * (the `clear()` after a failed open acts on a closed handle and does nothing), then begin
   * each manager on its own namespace.
   */
  method OpenAll(g: Globals)
    requires g.Valid() && !g.preferences.started
    modifies g.managers, g.Sensors(), g.Handles(), g.preferences, g.flash
    ensures g.Valid()
    ensures g.flash.available == old(g.flash.available) && g.flash.data == old(g.flash.data)
    ensures g.preferences.started == g.flash.available
    ensures g.preferences.started ==> g.preferences.ns == NvsNamespace
    ensures g.preferences.Visible() == if g.flash.available then g.flash.Contents(NvsNamespace) else map[]
    ensures forall i :: 0 <= i < |g.managers| ==>
      Begun(g.managers[i], ManagerNamespace(i), g.flash.available, g.flash.Contents(ManagerNamespace(i)),
            old(StateOf(g.managers[i])))
  {
    var ok := g.preferences.Begin(NvsNamespace);
    if !ok {
      ok := g.preferences.Clear();
    }
    assert g.preferences !in g.Handles();
    BeginManagers(g);
  }

  /**
   * The second half: load host name and flags, start the services, close the global
   * handle, and force Wi-Fi on while any scale is unconfigured.
   */
  method LoadAndClose(g: Globals, d: Defaults, efuse: uint64) returns (effects: seq<Effect>)
    requires g.preferences.flash == g.flash
    modifies g`hostName, g`enableWifi, g`enableBle, g`enableDac, g`enableMqtt, g.preferences, g.flash
    ensures !g.preferences.started
    ensures var before := old(g.preferences.Visible());
      var loaded := LoadedFlags(before, d);
      && g.hostName == HostNameOf(before, d)
      && g.Features() == loaded.(wifi := loaded.wifi ||
                                  exists i :: 0 <= i < |g.managers| && !g.managers[i].IsConfigured())
      && effects == SetupEffects(before, d, efuse)
      && g.flash.available == old(g.flash.available)
      && g.flash.data == if old(g.preferences.started)
                         then old(g.flash.data)[old(g.preferences.ns) := SetupStore(before, d, efuse)]
                         else old(g.flash.data)
  {
    effects := LoadSettings(g, d, efuse);
    g.preferences.End();
    ForceWifi(g);
  }

  /** `setup()` once the file system is mounted. */
  method Boot(g: Globals, d: Defaults, efuse: uint64) returns (effects: seq<Effect>)
    requires g.Valid() && !g.preferences.started
    modifies g`hostName, g`enableWifi, g`enableBle, g`enableDac, g`enableMqtt
    modifies g.managers, g.Sensors(), g.Handles(), g.preferences, g.flash
    ensures g.Valid() && !g.preferences.started
    ensures g.flash.available == old(g.flash.available)
    ensures var before := if old(g.flash.available) then old(g.flash.Contents(NvsNamespace)) else map[];
      var loaded := LoadedFlags(before, d);
      && g.hostName == HostNameOf(before, d)
      && g.Features() == loaded.(wifi := loaded.wifi ||
                                  exists i :: 0 <= i < |g.managers| && !g.managers[i].IsConfigured())
      && effects == SetupEffects(before, d, efuse)
      && g.flash.data == (if old(g.flash.available)
                          then old(g.flash.data)[NvsNamespace := SetupStore(before, d, efuse)]
                          else old(g.flash.data))
    ensures forall i :: 0 <= i < |g.managers| ==>
      Begun(g.managers[i], ManagerNamespace(i), old(g.flash.available), old(g.flash.Contents(ManagerNamespace(i))),
            old(StateOf(g.managers[i])))
  {
    OpenAll(g);
    effects := LoadAndClose(g, d, efuse);
  }

  /** After the wake-up handling: deep-sleep 5 s when the file system does not mount, boot otherwise. */
  method MountOrSleep(g: Globals, d: Defaults, fsMounted: bool, efuse: uint64) returns (effects: seq<Effect>)
    requires g.Valid() && !g.preferences.started
    modifies g`hostName, g`enableWifi, g`enableBle, g`enableDac, g`enableMqtt
    modifies g.managers, g.Sensors(), g.Handles(), g.preferences, g.flash
    ensures g.Valid() && !g.preferences.started
    ensures g.flash.available == old(g.flash.available)
    ensures !fsMounted ==>
      && effects == [DeepSleep(FsFailureSleep)]
      && g.Features() == old(g.Features()) && g.hostName == old(g.hostName)
      && g.flash.data == old(g.flash.data)
      && forall i :: 0 <= i < |g.managers| ==> unchanged(g.managers[i]) && unchanged(g.managers[i].hx711)
    ensures fsMounted ==>
      var before := if old(g.flash.available) then old(g.flash.Contents(NvsNamespace)) else map[];
      var loaded := LoadedFlags(before, d);
      && g.hostName == HostNameOf(before, d)
      && g.Features() == loaded.(wifi := loaded.wifi ||
                                  exists i :: 0 <= i < |g.managers| && !g.managers[i].IsConfigured())
      && effects == SetupEffects(before, d, efuse)
      && g.flash.data == (if old(g.flash.available)
                          then old(g.flash.data)[NvsNamespace := SetupStore(before, d, efuse)]
                          else old(g.flash.data))
      && forall i :: 0 <= i < |g.managers| ==>
           Begun(g.managers[i], ManagerNamespace(i), old(g.flash.available), old(g.flash.Contents(ManagerNamespace(i))),
                 old(StateOf(g.managers[i])))
  {
    if !fsMounted {
      effects := [DeepSleep(FsFailureSleep)];
    } else {
      effects := Boot(g, d, efuse);
    }
  }

  /**
   * `setup()`: handle the wake-up cause, deep-sleep 5 s when the file system does not
   * mount, and boot otherwise. The timestamps of the loop are not touched.
   */
  method Setup(g: Globals, d: Defaults, cause: WakeupCause, fsMounted: bool, efuse: uint64)
    returns (effects: seq<Effect>)
    requires g.Valid() && !g.preferences.started
    modifies g`buttonPressed, g`hostName, g`enableWifi, g`enableBle, g`enableDac, g`enableMqtt
    modifies g.managers, g.Sensors(), g.Handles(), g.preferences, g.flash
    ensures g.Valid() && !g.preferences.started
    ensures g.buttonPressed == (old(g.buttonPressed) || cause == Ext0)
    ensures g.flash.available == old(g.flash.available)
    ensures !fsMounted ==>
      && effects == WakeupEffects(cause) + [DeepSleep(FsFailureSleep)]
      && g.Features() == old(g.Features()) && g.hostName == old(g.hostName)
      && g.flash.data == old(g.flash.data)
      && forall i :: 0 <= i < |g.managers| ==> unchanged(g.managers[i]) && unchanged(g.managers[i].hx711)
    ensures fsMounted ==>
      var before := if old(g.flash.available) then old(g.flash.Contents(NvsNamespace)) else map[];
      var loaded := LoadedFlags(before, d);
      && g.hostName == HostNameOf(before, d)
      && g.Features() == loaded.(wifi := loaded.wifi ||
                                  exists i :: 0 <= i < |g.managers| && !g.managers[i].IsConfigured())
      && effects == WakeupEffects(cause) + SetupEffects(before, d, efuse)
      && g.flash.data == (if old(g.flash.available)
                          then old(g.flash.data)[NvsNamespace := SetupStore(before, d, efuse)]
                          else old(g.flash.data))
      && forall i :: 0 <= i < |g.managers| ==>
           Begun(g.managers[i], ManagerNamespace(i), old(g.flash.available), old(g.flash.Contents(ManagerNamespace(i))),
                 old(StateOf(g.managers[i])))
  {
    effects := HandleWakeup(g, cause);
    var rest := MountOrSleep(g, d, fsMounted, efuse);
    effects := effects + rest;
  }
}
