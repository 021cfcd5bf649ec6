/**
 * The firmware's shared state: the interval constants and RTC-resident timestamps of
 * `Timing`, the fixed registry of `LEVELMANAGERS` scale managers and their pins, the
 * setup button, the feature flags and host name, the global preferences handle, the
 * actions the firmware takes on its peripherals, and `getMacFromBT`.
 */
module Global {
  import opened Wrappers
  import opened Machine
  import opened Nvs
  import SM = ScaleManager

  /** Number of scale managers in the registry. */
  const LEVELMANAGERS: nat := 2
  /** Namespace of the global preferences, and stem of the managers' namespaces. */
  const NvsNamespace: string := "gas-scale"

  /** Intervals of `Timing`, in milliseconds. `setupInterval` is 900000 / 255 = 3529. */
  const WifiInterval: uint64 := 30000
  const ServiceInterval: uint64 := 10000
  const SensorInterval: uint64 := 1000
  const SetupInterval: uint64 := 15 * 60 * 1000 / 255

  /** The data and clock pins of one HX711. */
  datatype Pins = Pins(dout: uint8, pdSck: uint8)

  /** `GPIOSETTINGS`: slot i holds the pins of manager i + 1. */
  const GpioSettings: seq<Pins> := [Pins(32, 27), Pins(16, 17)]

  /** `button1.PIN`, an RTC-capable GPIO that can wake the chip. */
  const ButtonPin: nat := 4

  /**
   * The gate of the loop's periodic blocks: `now - last > interval` in unsigned 64-bit
   * arithmetic; strictly greater, and wrapping when the clock is behind the timestamp.
   */
  function Due(now: uint64, last: uint64, interval: uint64): (due: bool)
    ensures last <= now ==> (due <==> now - last > interval)
    ensures now < last ==> (due <==> now - last + TWO_64 > interval)
  {
    Sub64(now, last) > interval
  }

  /** MQTT topics the loops publish, each followed by the 1-based scale number. */
  datatype Topic = LevelTopic | SensorValueTopic | BottleTopic | SensorTopic

  /** One element of the JSON array the loop sends on the `status` event stream. */
  datatype StatusRow = StatusRow(id: nat, sensorValue: int, level: Option<int>)

  /** The firmware's actions on the world outside the model, in the order it takes them. */
  datatype Effect =
    | StartWifi(softApFallback: bool)   // Wi-Fi manager task, web server and API routes
    | Mdns(hostName: string)
    | MqttPrepare(host: string, port: uint16, topic: string, user: string, pass: string)
    | MqttPrepareStored                 // the argument-less `Mqtt.prepare()`
    | MqttConnect
    | MqttDisconnect
    | CreateBleServer(name: string)
    | StopBleServer
    | Ota(hostName: string, password: string)
    | RunSoftAp
    | StopServices                      // web server, mDNS, MQTT and Wi-Fi shut down
    | SoftReset                         // a 1 us timer deep sleep, keeping RTC memory
    | Dac(channel: nat, value: int)
    | BleLevel(value: int)
    | Publish(subject: Topic, scale: nat, value: int)
    | PublishNullPayload(subject: Topic, scale: nat)  // a publish handed a null payload of length 1
    | Status(rows: seq<StatusRow>)
    | DeepSleep(seconds: nat)
    | Delay(ms: nat)

  /** The four feature switches. */
  datatype Flags = Flags(wifi: bool, ble: bool, dac: bool, mqtt: bool)

  /** All globals of the firmware that its setup, loop and web handlers share. */
  class Globals {
    // timing_t Timing, kept in RTC memory across deep sleep
    var lastWifiCheck: uint64
    var lastServiceCheck: uint64
    var lastSensorRead: uint64
    var lastSetupRead: uint64
    // button1.pressed
    var buttonPressed: bool
    var hostName: string
    // the feature switches: `enableMqtt` is initialised false in `MQTTclient.cpp`; the other
    // three are defined outside this model and start false here; `setup` assigns all four
    // from the store before anything reads them
    var enableWifi: bool
    var enableBle: bool
    var enableDac: bool
    var enableMqtt: bool
    const flash: Flash
    const preferences: Preferences
    const managers: seq<SM.Manager>

    function Features(): Flags
      reads this
    {
      Flags(enableWifi, enableBle, enableDac, enableMqtt)
    }

    /** The HX711 drivers of the managers. */
    function Sensors(): set<object> {
      set i | 0 <= i < |managers| :: managers[i].hx711
    }

    /** The store handles of the managers. */
    function Handles(): set<object> {
      set i | 0 <= i < |managers| :: managers[i].preferences
    }

    /**
     * Exactly `LEVELMANAGERS` managers, pairwise distinct with distinct drivers and handles,
     * all handles on the one flash, and every manager handle but the global one closed.
     */
    ghost predicate Valid()
      reads Handles()
    {
      && |managers| == LEVELMANAGERS
      && preferences.flash == flash
      && (forall i :: 0 <= i < |managers| ==>
            managers[i].preferences.flash == flash && managers[i].preferences != preferences && managers[i].Valid())
      && (forall i, j :: 0 <= i < j < |managers| ==>
            managers[i] != managers[j] && managers[i].hx711 != managers[j].hx711 &&
            managers[i].preferences != managers[j].preferences)
    }

    /**
     * Every configured manager has distinct empty and full weights, so that its level is
     * defined (the firmware's float division would give inf or NaN otherwise).
     */
    predicate LevelsDefined()
      reads managers
    {
      forall i :: 0 <= i < |managers| && managers[i].IsConfigured() ==>
        managers[i].emptyWeightGramms != managers[i].fullWeightGramms
    }

    /** What the acquisition loop reads of each manager, in registry order. */
    ghost function Snapshots(): (s: seq<SM.Snapshot>)
      reads managers, Sensors()
      ensures |s| == |managers|
    {
      seq(|managers|, i requires 0 <= i < |managers| reads managers, Sensors() => managers[i].Snap())
    }

    /** The cached reading of each manager, in registry order. */
    function Medians(): (s: seq<int32>)
      reads managers
      ensures |s| == |managers|
    {
      seq(|managers|, i requires 0 <= i < |managers| reads managers => managers[i].lastMedian)
    }

    /** The calibration and namespace of each manager, in registry order. */
    function Settings(): (s: seq<(SM.Calibration, string)>)
      reads managers
      ensures |s| == |managers|
    {
      seq(|managers|, i requires 0 <= i < |managers| reads managers => (managers[i].Cal(), managers[i].nvs))
    }

    /**
     * Part way through a sensor round over managers that had snapshots `snaps` and settings
     * `settings`: the first `i` have taken one fresh reading, the others are as they were,
     * and no calibration or namespace has changed.
     */
    ghost predicate ReadUpTo(snaps: seq<SM.Snapshot>, settings: seq<(SM.Calibration, string)>, i: nat)
      reads managers, Sensors()
    {
      && |snaps| == |managers| && |settings| == |managers| && i <= |managers|
      && forall j :: 0 <= j < |managers| ==>
           && (managers[j].Cal(), managers[j].nvs) == settings[j]
           && managers[j].Snap() == if j < i then snaps[j].(lastMedian := SM.MedianAfterRead(snaps[j])) else snaps[j]
    }

    /**
     * Static initialisation: `Timing` all zero, the button not pressed, the registry of
     * managers built on `GPIOSETTINGS` in slot order, sharing the flash.
     */
    constructor (flash: Flash)
      ensures Valid() && this.flash == flash && !preferences.started
      ensures lastWifiCheck == 0 && lastServiceCheck == 0 && lastSensorRead == 0 && lastSetupRead == 0
      ensures !buttonPressed && hostName == ""
      ensures !enableWifi && !enableBle && !enableDac && !enableMqtt
      ensures forall i :: 0 <= i < |managers| ==>
        managers[i].hx711.dout == GpioSettings[i].dout && managers[i].hx711.pdSck == GpioSettings[i].pdSck &&
        !managers[i].IsConfigured() && managers[i].nvs == SM.DefaultNamespace
    {
      lastWifiCheck, lastServiceCheck, lastSensorRead, lastSetupRead := 0, 0, 0, 0;
      buttonPressed := false;
      hostName := "";
      enableWifi, enableBle, enableDac, enableMqtt := false, false, false, false;
      this.flash := flash;
      preferences := new Preferences(flash);
      var first := new SM.Manager(GpioSettings[0].dout, GpioSettings[0].pdSck, flash);
      var second := new SM.Manager(GpioSettings[1].dout, GpioSettings[1].pdSck, flash);
      managers := [first, second];
    }
  }

  // ---------------------------------------------------------------------------
  // getMacFromBT

  const HexDigits: string := "0123456789ABCDEF"

  /** One upper-case hex digit. */
  function HexDigit(d: nat): char
    requires d < 16
  {
    HexDigits[d]
  }

  /** `sprintf("%02X", b)`: two upper-case hex digits, high nibble first. */
  function Hex2(b: uint8): (s: string)
    ensures |s| == 2
  {
    [HexDigit(b / 16), HexDigit(b % 16)]
  }

  /** Both characters of `%02X` are upper-case hex digits. */
  lemma Hex2Digits(b: uint8)
    ensures Hex2(b)[0] in HexDigits && Hex2(b)[1] in HexDigits
  {
    assert Hex2(b)[0] == HexDigits[b / 16];
    assert Hex2(b)[1] == HexDigits[b % 16];
  }

  /** The bytes in order, each as two hex digits, with `spacer` between groups only. */
  function Join(bytes: seq<uint8>, spacer: string): (s: string)
    decreases |bytes|
  {
    if |bytes| == 0 then ""
    else if |bytes| == 1 then Hex2(bytes[0])
    else Join(bytes[..|bytes| - 1], spacer) + spacer + Hex2(bytes[|bytes| - 1])
  }

  /** `getMacFromBT(spacer)` once `esp_read_mac` has yielded the six bytes `mac`. */
  method MacFromBT(mac: seq<uint8>, spacer: string) returns (output: string)
    requires |mac| == 6
    ensures output == Join(mac, spacer)
  {
    output := "";
    for i := 0 to 6
      invariant output == Join(mac[..i], spacer) + (if 0 < i < 6 then spacer else "")
    {
      assert mac[..i + 1][..i] == mac[..i];
      output := output + Hex2(mac[i]);
      if i < 5 {
        output := output + spacer;
      }
    }
    assert mac[..6] == mac;
  }

  /** Length of `count` two-digit groups joined by `n`-character spacers. */
  function JoinedLength(count: nat, n: nat): (len: nat)
    ensures count >= 1 ==> len >= 2
  {
    if count <= 1 then 2 * count else JoinedLength(count - 1, n) + n + 2
  }

  /** The closed form: `2 * count + (count - 1) * n`. */
  lemma {:induction false} JoinedLengthClosed(count: nat, n: nat)
    requires count >= 1
    ensures JoinedLength(count, n) == 2 * count + (count - 1) * n
  {
    if count > 1 {
      JoinedLengthClosed(count - 1, n);
    }
  }

  /** `n` groups of two digits and `n - 1` spacers. */
  lemma {:induction false} JoinLength(bytes: seq<uint8>, spacer: string)
    ensures |Join(bytes, spacer)| == JoinedLength(|bytes|, |spacer|)
    decreases |bytes|
  {
    if |bytes| > 1 {
      JoinLength(bytes[..|bytes| - 1], spacer);
    }
  }

  /** A MAC address renders as 12 + 5 * |spacer| characters; 12 with the default empty spacer. */
  lemma MacLength(mac: seq<uint8>, spacer: string)
    requires |mac| == 6
    ensures |Join(mac, spacer)| == 12 + 5 * |spacer|
    ensures |Join(mac, "")| == 12
  {
    JoinLength(mac, spacer);
    JoinLength(mac, "");
    JoinedLengthClosed(6, |spacer|);
  }

  /** The value of an upper-case hex digit (what `%02X` emits). */
  function HexValue(c: char): nat {
    if '0' <= c <= '9' then (c as int) - ('0' as int)
    else if 'A' <= c <= 'F' then (c as int) - ('A' as int) + 10
    else 0
  }

  lemma HexDigitValue(d: nat)
    requires d < 16
    ensures HexValue(HexDigit(d)) == d
  {
  }

  /** The value of a two-digit group. */
  function GroupValue(h: string): int
    requires |h| == 2
  {
    HexValue(h[0]) * 16 + HexValue(h[1])
  }

  lemma Hex2Value(b: uint8)
    ensures GroupValue(Hex2(b)) == b
  {
    HexDigitValue(b / 16);
    HexDigitValue(b % 16);
  }

  /** Reads `count` two-digit groups separated by `n` spacer characters, last group last. */
  function ParseGroups(s: string, n: nat, count: nat): (bytes: seq<int>)
    requires count >= 1 && |s| == JoinedLength(count, n)
    ensures |bytes| == count
    decreases count
  {
    var last := [GroupValue(s[|s| - 2..])];
    if count == 1 then last
    else ParseGroups(s[..|s| - 2 - n], n, count - 1) + last
  }

  /** Parsing one more group after a spacer appends that group's value. */
  lemma ParseGroupsStep(t: string, spacer: string, h: string, count: nat)
    requires |h| == 2 && count >= 1 && |t| == JoinedLength(count, |spacer|)
    ensures |t + spacer + h| == JoinedLength(count + 1, |spacer|)
    ensures ParseGroups(t + spacer + h, |spacer|, count + 1)
            == ParseGroups(t, |spacer|, count) + [GroupValue(h)]
  {
    var s := t + spacer + h;
    assert |s| - 2 - |spacer| == |t| && |s| - 2 == |t| + |spacer|;
    assert s[..|t|] == t;
    assert s[|t| + |spacer|..] == h;
  }

  /** One more byte after a losslessly parsed rendering is parsed back as well. */
  lemma ParseJoinStep(front: seq<uint8>, b: uint8, spacer: string)
    requires |front| >= 1 && |Join(front, spacer)| == JoinedLength(|front|, |spacer|)
    requires ParseGroups(Join(front, spacer), |spacer|, |front|) == front
    ensures |Join(front + [b], spacer)| == JoinedLength(|front| + 1, |spacer|)
    ensures ParseGroups(Join(front + [b], spacer), |spacer|, |front| + 1) == front + [b]
  {
    var bytes := front + [b];
    assert bytes[..|bytes| - 1] == front && bytes[|bytes| - 1] == b;
    var t, h := Join(front, spacer), Hex2(b);
    assert Join(bytes, spacer) == t + spacer + h;
    ParseGroupsStep(t, spacer, h, |front|);
    Hex2Value(b);
  }

  /** Parsing the rendering back, whatever the spacer, gives the bytes: the format is lossless. */
  lemma {:induction false} ParseJoin(bytes: seq<uint8>, spacer: string)
    requires |bytes| >= 1
    ensures |Join(bytes, spacer)| == JoinedLength(|bytes|, |spacer|)
    ensures ParseGroups(Join(bytes, spacer), |spacer|, |bytes|) == bytes
  {
    var k := |bytes|;
    if k == 1 {
      var s := Join(bytes, spacer);
      Hex2Value(bytes[0]);
      assert s[|s| - 2..] == Hex2(bytes[0]);
      assert bytes == [bytes[0]];
    } else {
      var front := bytes[..k - 1];
      assert bytes == front + [bytes[k - 1]];
      ParseJoin(front, spacer);
      ParseJoinStep(front, bytes[k - 1], spacer);
    }
  }
}
