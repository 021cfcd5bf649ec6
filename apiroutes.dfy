/**
 * The decisions of the HTTP handlers in `api-routes.h`: which status a request gets, which
 * manager it reaches, and what the configuration handler writes and switches. Requests come
 * in already decoded: an optional `scale` query parameter, a JSON value for the weight, and
 * the fields of the configuration body.
 */
module ApiRoutes {
  import opened Wrappers
  import opened Machine
  import opened Nvs
  import opened Global
  import SM = ScaleManager
  import Hx711

  const StatusOk: nat := 200
  const StatusBadRequest: nat := 400
  const StatusUnprocessable: nat := 422

  // ---------------------------------------------------------------------------
  // The `scale` parameter

  /**
   * The `scale` parameter of `/api/setup/empty`, `/api/setup/weight`, `/api/rawvalue` and `/api/level/current`:
   * missing is 400; otherwise `toInt()` truncated to `uint8_t` must be a scale number in
   * `1..LEVELMANAGERS` (else 400), and the result is the slot index of that scale.
   */
  function SelectScale(param: Option<string>): (r: Result<nat, nat>)
    ensures r.Err? ==> r.error == StatusBadRequest
    ensures param.None? ==> r.Err?
    ensures r.Ok? ==> param.Some? && r.value < LEVELMANAGERS && r.value + 1 == ToUint8(Atol(param.value))
    ensures param.Some? && 1 <= ToUint8(Atol(param.value)) <= LEVELMANAGERS ==> r == Ok(ToUint8(Atol(param.value)) - 1)
  {
    match param
    case None => Err(StatusBadRequest)
    case Some(text) =>
      var scale := ToUint8(Atol(text));
      if scale > LEVELMANAGERS || scale < 1 then Err(StatusBadRequest) else Ok(scale - 1)
  }

  /**
   * A decimal scale number selects slot `n mod 256 - 1` when that is a scale, since the
   * parsed value is truncated to eight bits: "1" and "2" select slots 0 and 1, "257"
   * selects slot 0, "0" and "3" are rejected.
   */
  lemma SelectDecimal(n: nat)
    requires n <= INT32_MAX
    ensures SelectScale(Some(DecimalString(n))) ==
      if 1 <= n % TWO_8 <= LEVELMANAGERS then Ok(n % TWO_8 - 1) else Err(StatusBadRequest)
  {
    var text := DecimalString(n);
    AtolOfDecimal(n);
    assert ToUint8(Atol(text)) == n % TWO_8;
  }

  /**
   * A negative decimal `v` wraps to `v mod 256` as well: "-1" becomes 255 and is rejected,
   * while "-255" and "-254" select slots 0 and 1.
   */
  lemma SelectNegativeDecimal(v: int)
    requires INT32_MIN <= v <= 0
    ensures var b := ToUint8(v);
      SelectScale(Some("-" + DecimalString(-v))) == if 1 <= b <= LEVELMANAGERS then Ok(b - 1) else Err(StatusBadRequest)
  {
    AtolOfNegativeDecimal(-v);
    SelectParsed("-" + DecimalString(-v), v);
  }

  /** Minus one wraps to 255, which is out of range. */
  lemma SelectMinusOne()
    ensures SelectScale(Some("-1")) == Err(StatusBadRequest)
  {
    assert "-1" == "-" + DecimalString(1);
    SelectNegativeDecimal(-1);
  }

  /** The selection depends on the text only through the value `toInt()` gives for it. */
  lemma SelectParsed(text: string, v: int)
    requires Atol(text) == v
    ensures var b := ToUint8(v);
      SelectScale(Some(text)) == if 1 <= b <= LEVELMANAGERS then Ok(b - 1) else Err(StatusBadRequest)
  {
  }

  /** Text without a leading number parses as 0 and is rejected. */
  lemma SelectNonNumeric(text: string)
    requires NoDigits(text)
    ensures SelectScale(Some(text)) == Err(StatusBadRequest)
  {
  }

  // ---------------------------------------------------------------------------
  // Calibration routes

  /**
   * `/api/setup/empty`: with a valid scale number, reset that scale's driver (`emptyScale`)
   * and answer 200; else 400 and nothing changes.
   */
  method SetupEmpty(g: Globals, param: Option<string>) returns (status: nat)
    requires g.Valid()
    modifies g.Sensors()
    ensures g.Valid()
    ensures status == if SelectScale(param).Ok? then StatusOk else StatusBadRequest
    ensures SelectScale(param).Ok? ==>
      var m := g.managers[SelectScale(param).value];
      && m.hx711.scale == Hx711.DefaultScale && m.hx711.offset == old(m.hx711.average)
      && m.hx711.Hw() == old(m.hx711.Hw())
    ensures forall i :: 0 <= i < |g.managers| && SelectScale(param) != Ok(i) ==> unchanged(g.managers[i].hx711)
  {
    var selected := SelectScale(param);
    if selected.Err? {
      return selected.error;
    }
    var m := g.managers[selected.value];
    assert m.hx711 in g.Sensors();
    m.EmptyScale();
    status := StatusOk;
  }

  /** A decoded JSON value. */
  datatype JsonValue = JNull | JBool(b: bool) | JInteger(n: int) | JReal(r: real) | JString(s: string)

  /** `is<int>()`: a JSON integer that fits the 32-bit `int`. */
  predicate IsInt(v: JsonValue) {
    v.JInteger? && INT32_MIN <= v.n <= INT32_MAX
  }

  /** The status of `/api/setup/weight`: 400 for a bad scale, then 422 unless the weight is an `int`. */
  function SetupWeightStatus(param: Option<string>, weight: JsonValue): (status: nat)
    ensures status == StatusOk <==> SelectScale(param).Ok? && IsInt(weight)
    ensures status == StatusBadRequest <==> SelectScale(param).Err?
  {
    if SelectScale(param).Err? then StatusBadRequest
    else if !IsInt(weight) then StatusUnprocessable
    else StatusOk
  }

  /**
   * `/api/setup/weight`: with a valid scale number and an integer weight, calibrate that
   * scale with the reference weight (its new scale factor is written to its namespace) and
   * answer 200; otherwise nothing changes.
   */
  method SetupWeight(g: Globals, param: Option<string>, weight: JsonValue) returns (status: nat)
    requires g.Valid() && (SelectScale(param).Ok? ==> weight != JInteger(0))
    modifies g.Sensors(), g.Handles(), g.flash
    ensures g.Valid()
    ensures status == SetupWeightStatus(param, weight)
    ensures status != StatusOk ==>
      && g.flash.data == old(g.flash.data)
      && (forall i :: 0 <= i < |g.managers| ==> unchanged(g.managers[i].hx711))
      && (forall i :: 0 <= i < |g.managers| ==> unchanged(g.managers[i].preferences))
    ensures g.flash.available == old(g.flash.available)
    ensures status == StatusOk ==>
      var i := SelectScale(param).value;
      var m := g.managers[i];
      && m.hx711.scale == old(m.hx711.units) / weight.n as real
      && m.hx711.offset == old(m.hx711.offset) && m.hx711.Hw() == old(m.hx711.Hw())
      && (forall j :: 0 <= j < |g.managers| && j != i ==> unchanged(g.managers[j].hx711))
      && (forall j :: 0 <= j < |g.managers| && j != i ==> unchanged(g.managers[j].preferences))
      && g.flash.data ==
           if old(g.flash.available) then
             var written := SM.Calibration(m.hx711.scale, old(m.hx711.offset), m.emptyWeightGramms, m.fullWeightGramms);
             old(g.flash.data)[m.nvs := SM.Encode(written)]
           else old(g.flash.data)
  {
    var selected := SelectScale(param);
    if selected.Err? {
      return selected.error;
    }
    if !IsInt(weight) {
      return StatusUnprocessable;
    }
    var m := g.managers[selected.value];
    assert m.hx711 in g.Sensors() && m.preferences in g.Handles();
    var written := m.ApplyCalibrateWeight(weight.n);
    status := StatusOk;
  }

  // ---------------------------------------------------------------------------
  // Read-only routes

  /** `/api/rawvalue`: the cached reading of the selected scale; no sensor is read. */
  function RawValue(g: Globals, param: Option<string>): (r: Result<int32, nat>)
    reads g.managers
    requires |g.managers| == LEVELMANAGERS
    ensures r.Ok? <==> SelectScale(param).Ok?
    ensures r.Err? ==> r.error == StatusBadRequest
    ensures r.Ok? ==> r.value == g.managers[SelectScale(param).value].lastMedian
  {
    match SelectScale(param)
    case Err(status) => Err(status)
    case Ok(i) => Ok(g.managers[i].lastMedian)
  }

  /**
   * `getCalculatedPercentage(true)` seen from a route: the level of the cached reading. With
   * equal weights the firmware divides by zero; that value is not modelled (`None`).
   */
  function CachedLevelOf(m: SM.Manager): (level: Option<int>)
    reads m
    ensures level.Some? <==> m.emptyWeightGramms != m.fullWeightGramms
    ensures level.Some? ==> 0 <= level.value <= 100 && level.value == m.CachedLevel()
  {
    if m.emptyWeightGramms != m.fullWeightGramms then Some(m.CachedLevel()) else None
  }

  /** `/api/level/current`: the cached level of the selected scale; no sensor is read. */
  function LevelCurrent(g: Globals, param: Option<string>): (r: Result<Option<int>, nat>)
    reads g.managers
    requires |g.managers| == LEVELMANAGERS
    ensures r.Ok? <==> SelectScale(param).Ok?
    ensures r.Err? ==> r.error == StatusBadRequest
    ensures r.Ok? ==> r.value == CachedLevelOf(g.managers[SelectScale(param).value])
  {
    match SelectScale(param)
    case Err(status) => Err(status)
    case Ok(i) => Ok(CachedLevelOf(g.managers[i]))
  }

  /** The key of manager `i` in `/api/level/current/all`. */
  function LevelKey(i: nat): string {
    "level" + DecimalString(i)
  }

  /** Different managers get different keys. */
  lemma LevelKeysDistinct(i: nat, j: nat)
    ensures LevelKey(i) == LevelKey(j) <==> i == j
  {
    if i != j {
      DecimalStringInjective(i, j);
      assert LevelKey(i)[5..] == DecimalString(i);
      assert LevelKey(j)[5..] == DecimalString(j);
    }
  }

  /** `/api/level/current/all`: one entry per manager, in slot order, with its cached level. */
  method LevelCurrentAll(g: Globals) returns (entries: seq<(string, Option<int>)>)
    requires |g.managers| == LEVELMANAGERS
    ensures |entries| == |g.managers|
    ensures forall i :: 0 <= i < |entries| ==> entries[i] == (LevelKey(i), CachedLevelOf(g.managers[i]))
  {
    entries := [];
    for i := 0 to |g.managers|
      invariant |entries| == i
      invariant forall k :: 0 <= k < i ==> entries[k] == (LevelKey(k), CachedLevelOf(g.managers[k]))
    {
      entries := entries + [(LevelKey(i), CachedLevelOf(g.managers[i]))];
    }
  }

  /** `/api/num/levels`: the number of managers. */
  function NumLevels(g: Globals): (n: nat)
    reads g.Handles()
    requires g.Valid()
    ensures n == |g.managers|
  {
    LEVELMANAGERS
  }

  // ---------------------------------------------------------------------------
  // Configuration

  /** The fields of a `/api/config` POST body, after JSON decoding. */
  datatype ConfigBody = ConfigBody(hostname: string, enableWifi: bool, enableBle: bool, enableDac: bool,
                                   enableMqtt: bool, mqttPort: uint16, mqttHost: string, mqttTopic: string,
                                   mqttUser: string, mqttPass: string)

  /** The number of bytes of `s` in UTF-8, which is what `String::length()` counts. */
  function Utf8Length(s: string): (n: nat)
    ensures |s| <= n <= 4 * |s|
  {
    if s == [] then 0
    else
      var c := s[0] as int;
      (if c < 0x80 then 1 else if c < 0x800 then 2 else if c < 0x10000 then 3 else 4) + Utf8Length(s[1..])
  }

  /** An ASCII host name has as many bytes as characters. */
  lemma {:induction false} AsciiLength(s: string)
    requires forall k :: 0 <= k < |s| ==> s[k] as int < 0x80
    ensures Utf8Length(s) == |s|
  {
    if s != [] {
      AsciiLength(s[1..]);
    }
  }

  /** The only check on the host name: 3 to 32 bytes. */
  predicate ValidHostName(h: string) {
    3 <= Utf8Length(h) <= 32
  }

  /** The flags a body asks for. */
  function BodyFlags(b: ConfigBody): Flags {
    Flags(b.enableWifi, b.enableBle, b.enableDac, b.enableMqtt)
  }

  /** The global namespace after the puts of an accepted body, in the handler's order. */
  function ConfigStore(ns: Namespace, b: ConfigBody): Namespace {
    MqttStore(GeneralStore(ns, b), b)
  }

  /** The host name and the Wi-Fi, BLE, Wi-Fi (again) and DAC flags. */
  function GeneralStore(ns: Namespace, b: ConfigBody): Namespace {
    ns["hostName" := StringVal(b.hostname)]
      ["enableWifi" := BoolVal(b.enableWifi)]
      ["enableBle" := BoolVal(b.enableBle)]
      ["enableWifi" := BoolVal(b.enableWifi)]
      ["enableDac" := BoolVal(b.enableDac)]
  }

  /** The MQTT settings and flag. */
  function MqttStore(ns: Namespace, b: ConfigBody): Namespace {
    ns["mqttPort" := UIntVal(b.mqttPort)]
      ["mqttHost" := StringVal(b.mqttHost)]
      ["mqttTopic" := StringVal(b.mqttTopic)]
      ["mqttUser" := StringVal(b.mqttUser)]
      ["mqttPass" := StringVal(b.mqttPass)]
      ["enableMqtt" := BoolVal(b.enableMqtt)]
  }

  /** The keys the handler writes are pairwise different. */
  lemma SettingKeysDistinct()
    ensures var keys := ["hostName", "enableWifi", "enableBle", "enableDac", "enableMqtt",
                         "mqttPort", "mqttHost", "mqttTopic", "mqttUser", "mqttPass"];
      forall i, j :: 0 <= i < j < |keys| ==> keys[i] != keys[j]
  {
    var keys := ["hostName", "enableWifi", "enableBle", "enableDac", "enableMqtt",
                 "mqttPort", "mqttHost", "mqttTopic", "mqttUser", "mqttPass"];
    forall i, j | 0 <= i < j < |keys|
      ensures keys[i] != keys[j]
    {
      if keys[i][0] == keys[j][0] {
        if i == 0 {
        } else if j < 5 {
          assert keys[i][6] != keys[j][6];
        } else if keys[i][4] == keys[j][4] {
          assert i == 5 && j == 9 && keys[i][5] != keys[j][5];
        }
      }
    }
  }

  /** The host name and the flags of an accepted body read back as sent. */
  lemma ConfigFlagsReadBack(ns: Namespace, b: ConfigBody)
    ensures var stored := ConfigStore(ns, b);
      && GetString(stored, "hostName", "") == b.hostname
      && GetBool(stored, "enableWifi", true) == b.enableWifi
      && GetBool(stored, "enableBle", true) == b.enableBle
      && GetBool(stored, "enableDac", true) == b.enableDac
      && GetBool(stored, "enableMqtt", true) == b.enableMqtt
  {
    KnownKeys();
    var general := GeneralStore(ns, b);
    GeneralReadsBack(ns, b);
    MqttStoreKeeps(general, b, "hostName", StringVal(""));
    MqttStoreKeeps(general, b, "enableWifi", BoolVal(true));
    MqttStoreKeeps(general, b, "enableBle", BoolVal(true));
    MqttStoreKeeps(general, b, "enableDac", BoolVal(true));
  }

  /** The host name and flag puts read back as sent. */
  lemma GeneralReadsBack(ns: Namespace, b: ConfigBody)
    ensures var general := GeneralStore(ns, b);
      && Lookup(general, "hostName", StringVal("")) == StringVal(b.hostname)
      && Lookup(general, "enableWifi", BoolVal(true)) == BoolVal(b.enableWifi)
      && Lookup(general, "enableBle", BoolVal(true)) == BoolVal(b.enableBle)
      && Lookup(general, "enableDac", BoolVal(true)) == BoolVal(b.enableDac)
  {
    KnownKeys();
  }

  /** The MQTT puts leave every other key as it was. */
  lemma MqttStoreKeeps(ns: Namespace, b: ConfigBody, key: string, default: Value)
    requires key != "mqttPort" && key != "mqttHost" && key != "mqttTopic"
    requires key != "mqttUser" && key != "mqttPass" && key != "enableMqtt"
    ensures Lookup(MqttStore(ns, b), key, default) == Lookup(ns, key, default)
  {
  }

  /** The MQTT settings of an accepted body read back as sent. */
  lemma ConfigMqttReadsBack(ns: Namespace, b: ConfigBody)
    ensures var stored := ConfigStore(ns, b);
      && GetUInt(stored, "mqttPort", 1883) == b.mqttPort
      && GetString(stored, "mqttHost", "") == b.mqttHost
      && GetString(stored, "mqttTopic", "") == b.mqttTopic
      && GetString(stored, "mqttUser", "") == b.mqttUser
      && GetString(stored, "mqttPass", "") == b.mqttPass
  {
    KnownKeys();
  }

  /** The disequalities of the written keys, spelled out. */
  lemma KnownKeys()
    ensures "hostName" != "enableWifi" && "hostName" != "enableBle" && "hostName" != "enableDac"
    ensures "hostName" != "enableMqtt" && "hostName" != "mqttPort" && "hostName" != "mqttHost"
    ensures "hostName" != "mqttTopic" && "hostName" != "mqttUser" && "hostName" != "mqttPass"
    ensures "enableWifi" != "enableBle" && "enableWifi" != "enableDac" && "enableWifi" != "enableMqtt"
    ensures "enableBle" != "enableDac" && "enableBle" != "enableMqtt" && "enableDac" != "enableMqtt"
    ensures "enableWifi" != "mqttPort" && "enableWifi" != "mqttHost" && "enableWifi" != "mqttTopic"
    ensures "enableWifi" != "mqttUser" && "enableWifi" != "mqttPass"
    ensures "enableBle" != "mqttPort" && "enableBle" != "mqttHost" && "enableBle" != "mqttTopic"
    ensures "enableBle" != "mqttUser" && "enableBle" != "mqttPass"
    ensures "enableDac" != "mqttPort" && "enableDac" != "mqttHost" && "enableDac" != "mqttTopic"
    ensures "enableDac" != "mqttUser" && "enableDac" != "mqttPass"
    ensures "enableMqtt" != "mqttPort" && "enableMqtt" != "mqttHost" && "enableMqtt" != "mqttTopic"
    ensures "enableMqtt" != "mqttUser" && "enableMqtt" != "mqttPass"
    ensures "mqttPort" != "mqttHost" && "mqttPort" != "mqttTopic" && "mqttPort" != "mqttUser" && "mqttPort" != "mqttPass"
    ensures "mqttHost" != "mqttTopic" && "mqttHost" != "mqttUser" && "mqttHost" != "mqttPass"
    ensures "mqttTopic" != "mqttUser" && "mqttTopic" != "mqttPass" && "mqttUser" != "mqttPass"
  {
    SettingKeysDistinct();
    var keys := ["hostName", "enableWifi", "enableBle", "enableDac", "enableMqtt",
                 "mqttPort", "mqttHost", "mqttTopic", "mqttUser", "mqttPass"];
    assert keys[0] == "hostName" && keys[1] == "enableWifi" && keys[2] == "enableBle" && keys[3] == "enableDac";
    assert keys[4] == "enableMqtt" && keys[5] == "mqttPort" && keys[6] == "mqttHost" && keys[7] == "mqttTopic";
    assert keys[8] == "mqttUser" && keys[9] == "mqttPass";
  }

  /** One more setting written into the namespace `key` of a store. */
  lemma SettingAfter(data: map<string, Namespace>, key: string, store: Namespace, setting: string, v: Value)
    ensures WithSetting(data[key := store], key, setting, v) == data[key := store[setting := v]]
  {
  }

  /**
   * The service changes of an accepted body, when the handle is open: BLE is stopped if it
   * was on and started (with the host name in use) if it is now on; MQTT is disconnected if
   * it was on, and prepared from the store and connected if it is now on.
   */
  function ConfigEffects(before: Flags, b: ConfigBody, hostName: string): (effects: seq<Effect>)
    ensures StopBleServer in effects <==> before.ble
    ensures CreateBleServer(hostName) in effects <==> b.enableBle
    ensures MqttDisconnect in effects <==> before.mqtt
    ensures MqttConnect in effects <==> b.enableMqtt
  {
    BleChange(before.ble, b.enableBle, hostName) + MqttChange(before.mqtt, b.enableMqtt)
  }

  /** Switching BLE: stop the server that was on, start one when it is now on. */
  function BleChange(wasOn: bool, on: bool, hostName: string): seq<Effect> {
    (if wasOn then [StopBleServer] else []) + (if on then [CreateBleServer(hostName)] else [])
  }

  /** Switching MQTT: disconnect the client that was on, prepare and connect it when it is now on. */
  function MqttChange(wasOn: bool, on: bool): seq<Effect> {
    (if wasOn then [MqttDisconnect] else []) + (if on then [MqttPrepareStored, MqttConnect] else [])
  }

  /** The namespace `key` of `data` with one more setting. */
  function WithSetting(data: map<string, Namespace>, key: string, setting: string, v: Value): map<string, Namespace> {
    data[key := (if key in data then data[key] else map[])[setting := v]]
  }

  /** `putString("hostName", …)`, whose result the handler ignores. */
  method PutHostName(g: Globals, hostname: string)
    requires g.preferences.flash == g.flash
    modifies g.flash
    ensures g.flash.available == old(g.flash.available)
    ensures g.flash.data == if g.preferences.started
                            then WithSetting(old(g.flash.data), g.preferences.ns, "hostName", StringVal(hostname))
                            else old(g.flash.data)
  {
    var ok := g.preferences.Put("hostName", StringVal(hostname));
  }

  /** `enableWifi` is switched when its put succeeds. */
  method PutEnableWifi(g: Globals, value: bool)
    requires g.preferences.flash == g.flash
    modifies g`enableWifi, g.flash
    ensures g.flash.available == old(g.flash.available)
    ensures g.flash.data == if g.preferences.started
                            then WithSetting(old(g.flash.data), g.preferences.ns, "enableWifi", BoolVal(value))
                            else old(g.flash.data)
    ensures g.enableWifi == if g.preferences.started then value else old(g.enableWifi)
  {
    var ok := g.preferences.Put("enableWifi", BoolVal(value));
    if ok {
      g.enableWifi := value;
    }
  }

  /**
   * `enableBle` is switched when its put succeeds, stopping the BLE server that was on and
   * starting one for the host name in use when it is now on.
   */
  method PutEnableBle(g: Globals, value: bool) returns (effects: seq<Effect>)
    requires g.preferences.flash == g.flash
    modifies g`enableBle, g.flash
    ensures g.flash.available == old(g.flash.available)
    ensures g.flash.data == if g.preferences.started
                            then WithSetting(old(g.flash.data), g.preferences.ns, "enableBle", BoolVal(value))
                            else old(g.flash.data)
    ensures g.enableBle == if g.preferences.started then value else old(g.enableBle)
    ensures effects == if g.preferences.started then BleChange(old(g.enableBle), value, g.hostName) else []
  {
    effects := [];
    var ok := g.preferences.Put("enableBle", BoolVal(value));
    if ok {
      if g.enableBle {
        effects := effects + [StopBleServer];
      }
      g.enableBle := value;
      if g.enableBle {
        effects := effects + [CreateBleServer(g.hostName)];
      }
    }
  }

  /** `enableDac` is switched when its put succeeds. */
  method PutEnableDac(g: Globals, value: bool)
    requires g.preferences.flash == g.flash
    modifies g`enableDac, g.flash
    ensures g.flash.available == old(g.flash.available)
    ensures g.flash.data == if g.preferences.started
                            then WithSetting(old(g.flash.data), g.preferences.ns, "enableDac", BoolVal(value))
                            else old(g.flash.data)
    ensures g.enableDac == if g.preferences.started then value else old(g.enableDac)
  {
    var ok := g.preferences.Put("enableDac", BoolVal(value));
    if ok {
      g.enableDac := value;
    }
  }

  /** The MQTT connection settings, whose put results the handler ignores. */
  method PutMqttSettings(g: Globals, b: ConfigBody)
    requires g.preferences.flash == g.flash
    modifies g.flash
    ensures g.flash.available == old(g.flash.available)
    ensures var ns := g.preferences.ns;
      g.flash.data == if g.preferences.started
                      then old(g.flash.data)[ns := old(g.flash.Contents(ns))
                                                  ["mqttPort" := UIntVal(b.mqttPort)]
                                                  ["mqttHost" := StringVal(b.mqttHost)]
                                                  ["mqttTopic" := StringVal(b.mqttTopic)]
                                                  ["mqttUser" := StringVal(b.mqttUser)]
                                                  ["mqttPass" := StringVal(b.mqttPass)]]
                      else old(g.flash.data)
  {
    var ok := g.preferences.Put("mqttPort", UIntVal(b.mqttPort));
    ok := g.preferences.Put("mqttHost", StringVal(b.mqttHost));
    ok := g.preferences.Put("mqttTopic", StringVal(b.mqttTopic));
    ok := g.preferences.Put("mqttUser", StringVal(b.mqttUser));
    ok := g.preferences.Put("mqttPass", StringVal(b.mqttPass));
  }

  /**
   * `enableMqtt` is switched when its put succeeds: the client is disconnected if it was on,
   * and prepared from the stored settings and connected if it is now on.
   */
  method PutEnableMqtt(g: Globals, value: bool) returns (effects: seq<Effect>)
    requires g.preferences.flash == g.flash
    modifies g`enableMqtt, g.flash
    ensures g.flash.available == old(g.flash.available)
    ensures g.flash.data == if g.preferences.started
                            then WithSetting(old(g.flash.data), g.preferences.ns, "enableMqtt", BoolVal(value))
                            else old(g.flash.data)
    ensures g.enableMqtt == if g.preferences.started then value else old(g.enableMqtt)
    ensures effects == if g.preferences.started then MqttChange(old(g.enableMqtt), value) else []
  {
    effects := [];
    var ok := g.preferences.Put("enableMqtt", BoolVal(value));
    if ok {
      if g.enableMqtt {
        effects := effects + [MqttDisconnect];
      }
      g.enableMqtt := value;
      if g.enableMqtt {
        effects := effects + [MqttPrepareStored, MqttConnect];
      }
    }
  }

  /** The host name and the Wi-Fi, BLE and DAC flags, in the handler's order. */
  method StoreGeneral(g: Globals, b: ConfigBody) returns (effects: seq<Effect>)
    requires g.preferences.flash == g.flash
    modifies g`enableWifi, g`enableBle, g`enableDac, g.flash
    ensures g.flash.available == old(g.flash.available)
    ensures var key := g.preferences.ns;
      g.flash.data == if g.preferences.started then old(g.flash.data)[key := GeneralStore(old(g.flash.Contents(key)), b)]
                      else old(g.flash.data)
    ensures g.preferences.started ==>
      && g.enableWifi == b.enableWifi && g.enableBle == b.enableBle && g.enableDac == b.enableDac
      && effects == BleChange(old(g.enableBle), b.enableBle, g.hostName)
    ensures !g.preferences.started ==>
      && g.enableWifi == old(g.enableWifi) && g.enableBle == old(g.enableBle) && g.enableDac == old(g.enableDac)
      && effects == []
  {
    ghost var key := g.preferences.ns;
    ghost var started := g.preferences.started;
    ghost var store := old(g.flash.Contents(key));
    PutHostName(g, b.hostname);
    store := store["hostName" := StringVal(b.hostname)];
    assert g.flash.data == if started then old(g.flash.data)[key := store] else old(g.flash.data);
    SettingAfter(old(g.flash.data), key, store, "enableWifi", BoolVal(b.enableWifi));
    PutEnableWifi(g, b.enableWifi);
    store := store["enableWifi" := BoolVal(b.enableWifi)];
    assert g.flash.data == if started then old(g.flash.data)[key := store] else old(g.flash.data);
    SettingAfter(old(g.flash.data), key, store, "enableBle", BoolVal(b.enableBle));
    effects := PutEnableBle(g, b.enableBle);
    store := store["enableBle" := BoolVal(b.enableBle)];
    assert g.flash.data == if started then old(g.flash.data)[key := store] else old(g.flash.data);
    SettingAfter(old(g.flash.data), key, store, "enableWifi", BoolVal(b.enableWifi));
    PutEnableWifi(g, b.enableWifi);
    store := store["enableWifi" := BoolVal(b.enableWifi)];
    assert g.flash.data == if started then old(g.flash.data)[key := store] else old(g.flash.data);
    SettingAfter(old(g.flash.data), key, store, "enableDac", BoolVal(b.enableDac));
    PutEnableDac(g, b.enableDac);
  }

  /** The MQTT settings and flag, in the handler's order. */
  method StoreMqtt(g: Globals, b: ConfigBody) returns (effects: seq<Effect>)
    requires g.preferences.flash == g.flash
    modifies g`enableMqtt, g.flash
    ensures g.flash.available == old(g.flash.available)
    ensures var key := g.preferences.ns;
      g.flash.data == if g.preferences.started then old(g.flash.data)[key := MqttStore(old(g.flash.Contents(key)), b)]
                      else old(g.flash.data)
    ensures g.preferences.started ==>
      && g.enableMqtt == b.enableMqtt
      && effects == MqttChange(old(g.enableMqtt), b.enableMqtt)
    ensures !g.preferences.started ==> g.enableMqtt == old(g.enableMqtt) && effects == []
  {
    ghost var key := g.preferences.ns;
    ghost var store := old(g.flash.Contents(key))["mqttPort" := UIntVal(b.mqttPort)]
                   ["mqttHost" := StringVal(b.mqttHost)]["mqttTopic" := StringVal(b.mqttTopic)]
                   ["mqttUser" := StringVal(b.mqttUser)]["mqttPass" := StringVal(b.mqttPass)];
    PutMqttSettings(g, b);
    SettingAfter(old(g.flash.data), key, store, "enableMqtt", BoolVal(b.enableMqtt));
    effects := PutEnableMqtt(g, b.enableMqtt);
  }

  /** Every setting of a body put into the global namespace, in the handler's order. */
  method StoreConfig(g: Globals, b: ConfigBody) returns (effects: seq<Effect>)
    requires g.preferences.flash == g.flash
    modifies g`enableWifi, g`enableBle, g`enableDac, g`enableMqtt, g.flash
    ensures g.flash.available == old(g.flash.available)
    ensures g.preferences.started ==>
      && g.Features() == BodyFlags(b)
      && effects == ConfigEffects(old(g.Features()), b, g.hostName)
      && g.flash.data == old(g.flash.data)[g.preferences.ns := ConfigStore(old(g.preferences.Visible()), b)]
    ensures !g.preferences.started ==>
      effects == [] && g.Features() == old(g.Features()) && g.flash.data == old(g.flash.data)
  {
    ghost var key := g.preferences.ns;
    ghost var general := GeneralStore(old(g.flash.Contents(key)), b);
    var ble := StoreGeneral(g, b);
    var mqtt := StoreMqtt(g, b);
    effects := ble + mqtt;
    if g.preferences.started {
      Overwrite(old(g.flash.data), key, general, MqttStore(general, b));
    }
  }

  /**
   * `/api/config` POST. A host name outside 3..32 bytes is answered with 422 before anything
   * is written. Otherwise every setting is put into the global namespace and the answer is
   * 200; each flag, and the BLE and MQTT services, change only when the put succeeded, that
   * is when the global handle is open. The host name in use is not changed.
   */
  method ConfigPost(g: Globals, b: ConfigBody) returns (status: nat, effects: seq<Effect>)
    requires g.preferences.flash == g.flash
    modifies g`enableWifi, g`enableBle, g`enableDac, g`enableMqtt, g.flash
    ensures g.hostName == old(g.hostName) && g.flash.available == old(g.flash.available)
    ensures !ValidHostName(b.hostname) ==>
      status == StatusUnprocessable && effects == [] &&
      g.Features() == old(g.Features()) && g.flash.data == old(g.flash.data)
    ensures ValidHostName(b.hostname) && g.preferences.started ==>
      && status == StatusOk
      && g.Features() == BodyFlags(b)
      && effects == ConfigEffects(old(g.Features()), b, g.hostName)
      && g.flash.data == old(g.flash.data)[g.preferences.ns := ConfigStore(old(g.preferences.Visible()), b)]
    ensures ValidHostName(b.hostname) && !g.preferences.started ==>
      status == StatusOk && effects == [] && g.Features() == old(g.Features()) && g.flash.data == old(g.flash.data)
  {
    if !ValidHostName(b.hostname) {
      return StatusUnprocessable, [];
    }
    effects := StoreConfig(g, b);
    status := StatusOk;
  }
}
