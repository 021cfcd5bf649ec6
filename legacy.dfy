/**
 * `loop()` of the earlier firmware in `scale.cpp`: a button press ends the iteration with a
 * soft reset; otherwise the service block and, every `sensorInterval`, one visit per manager
 * that reads it afresh, drives DAC and BLE and publishes to MQTT; then `sleepOrDelay()`.
 * Its `setup()` is `Firmware.Setup` with `LegacyDefaults`.
 */
module LegacyLoop {
  import opened Machine
  import Nvs
  import opened Global
  import opened Firmware
  import SM = ScaleManager

  /** `runtime()`: the RTC time in microseconds, in whole milliseconds. */
  function Runtime(us: uint64): (ms: uint64)
    ensures ms * 1000 <= us < ms * 1000 + 1000
  {
    us / 1000
  }

  /** A later RTC time never gives an earlier runtime. */
  lemma RuntimeMonotonic(a: uint64, b: uint64)
    requires a <= b
    ensures Runtime(a) <= Runtime(b)
  {
    SM.DivMonotonic(a, b, 1000);
  }

  /** The level of a configured scale: that of a fresh reading, the error code -1 included. */
  function FreshLevel(s: SM.Snapshot): (pct: int)
    requires s.configured && s.emptyWeight != s.fullWeight
    ensures 0 <= pct <= 100
  {
    SM.Percentage(SM.ReadValue(s), s.emptyWeight, s.fullWeight)
  }

  /**
   * The outputs of the visit of manager `i`. An unconfigured scale sends 0 to the DAC and the
   * initial level -1 over BLE.
   */
  function Outputs(i: nat, s: SM.Snapshot, f: Flags, mqttReady: bool): seq<Effect>
    requires SM.SpanOk(s)
  {
    if s.configured then
      var level := FreshLevel(s);
      (if f.dac then [Dac(i + 1, level)] else [])
      + (if f.ble then [BleLevel(level)] else [])
      + (if f.mqtt && mqttReady then [Publish(BottleTopic, i + 1, level), Publish(SensorTopic, i + 1, SM.MedianAfterRead(s))]
         else [])
    else
      (if f.dac then [Dac(i + 1, 0)] else []) + (if f.ble then [BleLevel(-1)] else [])
  }

  /**
   * The outputs of one sensor block over managers with the given snapshots, in slot order.
   * `mqttReady[i]` is what `Mqtt.isReady()` answers when manager `i` is visited: the source asks
   * again for every manager, and the connection can drop part way through a round.
   */
  function Round(snaps: seq<SM.Snapshot>, f: Flags, mqttReady: seq<bool>): seq<Effect>
    requires SM.SpansOk(snaps) && |snaps| <= |mqttReady|
    decreases |snaps|
  {
    if snaps == [] then []
    else Round(snaps[..|snaps| - 1], f, mqttReady) + Outputs(|snaps| - 1, snaps[|snaps| - 1], f, mqttReady[|snaps| - 1])
  }

  /**
   * A publish of a sensor block is allowed: MQTT on and ready, from a configured scale,
   * carrying its fresh level on the bottle topic or its cached reading on the sensor topic.
   */
  predicate PublishAllowed(snaps: seq<SM.Snapshot>, f: Flags, mqttReady: seq<bool>, e: Effect)
    requires SM.SpansOk(snaps) && |snaps| <= |mqttReady| && e.Publish?
  {
    && f.mqtt && 1 <= e.scale <= |snaps| && mqttReady[e.scale - 1]
    && var s := snaps[e.scale - 1];
       && s.configured
       && ((e.subject == BottleTopic && e.value == FreshLevel(s)) ||
           (e.subject == SensorTopic && e.value == SM.MedianAfterRead(s)))
  }

  /** The publishes of the last manager's visit are allowed. */
  lemma LastPublishesAllowed(snaps: seq<SM.Snapshot>, f: Flags, mqttReady: seq<bool>)
    requires SM.SpansOk(snaps) && |snaps| <= |mqttReady| && snaps != []
    ensures forall e :: e in Outputs(|snaps| - 1, snaps[|snaps| - 1], f, mqttReady[|snaps| - 1]) && e.Publish? ==>
      PublishAllowed(snaps, f, mqttReady, e)
  {
  }

  /** Only configured scales publish, and only when MQTT is on and ready at their visit. */
  lemma {:induction false} PublishesOnlyConfigured(snaps: seq<SM.Snapshot>, f: Flags, mqttReady: seq<bool>)
    requires SM.SpansOk(snaps) && |snaps| <= |mqttReady|
    ensures forall e :: e in Round(snaps, f, mqttReady) && e.Publish? ==> PublishAllowed(snaps, f, mqttReady, e)
    decreases |snaps|
  {
    if snaps != [] {
      var n := |snaps|;
      var front := snaps[..n - 1];
      assert forall k :: 0 <= k < n - 1 ==> front[k] == snaps[k];
      PublishesOnlyConfigured(front, f, mqttReady);
      LastPublishesAllowed(snaps, f, mqttReady);
      var last := Outputs(n - 1, snaps[n - 1], f, mqttReady[n - 1]);
      forall e | e in Round(snaps, f, mqttReady) && e.Publish?
        ensures PublishAllowed(snaps, f, mqttReady, e)
      {
        if e !in last {
          assert e in Round(front, f, mqttReady);
          assert PublishAllowed(front, f, mqttReady, e);
        }
      }
    }
  }

  /** With MQTT on and ready, a configured last scale publishes its level and its reading. */
  lemma LastScalePublishes(snaps: seq<SM.Snapshot>, f: Flags, mqttReady: seq<bool>)
    requires SM.SpansOk(snaps) && |snaps| <= |mqttReady| && f.mqtt && snaps != [] && mqttReady[|snaps| - 1] && snaps[|snaps| - 1].configured
    ensures Publish(BottleTopic, |snaps|, FreshLevel(snaps[|snaps| - 1])) in Round(snaps, f, mqttReady)
    ensures Publish(SensorTopic, |snaps|, SM.MedianAfterRead(snaps[|snaps| - 1])) in Round(snaps, f, mqttReady)
  {
    var last := Outputs(|snaps| - 1, snaps[|snaps| - 1], f, mqttReady[|snaps| - 1]);
    assert Publish(BottleTopic, |snaps|, FreshLevel(snaps[|snaps| - 1])) in last;
    assert Publish(SensorTopic, |snaps|, SM.MedianAfterRead(snaps[|snaps| - 1])) in last;
  }

  /** With MQTT on, every configured scale that finds MQTT ready publishes its level and its reading. */
  lemma {:induction false} ConfiguredScalesPublish(snaps: seq<SM.Snapshot>, f: Flags, mqttReady: seq<bool>, k: nat)
    requires SM.SpansOk(snaps) && |snaps| <= |mqttReady| && f.mqtt && k < |snaps| && mqttReady[k] && snaps[k].configured
    ensures Publish(BottleTopic, k + 1, FreshLevel(snaps[k])) in Round(snaps, f, mqttReady)
    ensures Publish(SensorTopic, k + 1, SM.MedianAfterRead(snaps[k])) in Round(snaps, f, mqttReady)
    decreases |snaps|
  {
    var n := |snaps|;
    if k < n - 1 {
      var front := snaps[..n - 1];
      assert forall j :: 0 <= j < n - 1 ==> front[j] == snaps[j];
      ConfiguredScalesPublish(front, f, mqttReady, k);
    } else {
      LastScalePublishes(snaps, f, mqttReady);
    }
  }

  /** The BLE and DAC values of the last manager's visit are in range. */
  lemma LastOutputsInRange(snaps: seq<SM.Snapshot>, f: Flags, mqttReady: seq<bool>)
    requires SM.SpansOk(snaps) && |snaps| <= |mqttReady| && snaps != []
    ensures forall e :: e in Outputs(|snaps| - 1, snaps[|snaps| - 1], f, mqttReady[|snaps| - 1]) && e.BleLevel? ==> -1 <= e.value <= 100
    ensures forall e :: e in Outputs(|snaps| - 1, snaps[|snaps| - 1], f, mqttReady[|snaps| - 1]) && e.Dac? ==>
      1 <= e.channel <= |snaps| && 0 <= e.value <= 100
  {
  }

  /**
   * Every BLE value of a sensor block is a level in [0, 100] or the -1 of an unconfigured
   * scale; every DAC value is a level, on the channel of a 1-based scale number.
   */
  lemma {:induction false} OutputsInRange(snaps: seq<SM.Snapshot>, f: Flags, mqttReady: seq<bool>)
    requires SM.SpansOk(snaps) && |snaps| <= |mqttReady|
    ensures forall e :: e in Round(snaps, f, mqttReady) && e.BleLevel? ==> -1 <= e.value <= 100
    ensures forall e :: e in Round(snaps, f, mqttReady) && e.Dac? ==> 1 <= e.channel <= |snaps| && 0 <= e.value <= 100
    decreases |snaps|
  {
    if snaps != [] {
      var n := |snaps|;
      var front := snaps[..n - 1];
      assert forall k :: 0 <= k < n - 1 ==> front[k] == snaps[k];
      OutputsInRange(front, f, mqttReady);
      LastOutputsInRange(snaps, f, mqttReady);
      var last := Outputs(n - 1, snaps[n - 1], f, mqttReady[n - 1]);
      forall e | e in Round(snaps, f, mqttReady)
        ensures e in Round(front, f, mqttReady) || e in last
      {
      }
    }
  }

  /** An unconfigured scale sends -1 over BLE and publishes nothing. */
  lemma UnconfiguredOutputs(i: nat, s: SM.Snapshot, f: Flags, mqttReady: bool)
    requires !s.configured
    ensures f.ble ==> BleLevel(-1) in Outputs(i, s, f, mqttReady)
    ensures forall e :: e in Outputs(i, s, f, mqttReady) ==> !e.Publish?
  {
  }

  /**
   * The outputs of the visit of manager `i` as `scale.cpp` is written. Its bottle publish passes
   * 0, `true` and the level text, which selects the MQTT client's (topic, payload bytes, length,
   * retained) overload: a null payload of length 1. The level is never sent, and the client
   * reads the payload byte from address 0, a load fault on the ESP32, so the visit publishes
   * nothing after it. Elsewhere the visit is `Outputs`.
   */
  function OutputsAsWritten(i: nat, s: SM.Snapshot, f: Flags, mqttReady: bool): seq<Effect>
    requires SM.SpanOk(s)
  {
    if s.configured && f.mqtt && mqttReady then
      var level := FreshLevel(s);
      (if f.dac then [Dac(i + 1, level)] else [])
      + (if f.ble then [BleLevel(level)] else [])
      + [PublishNullPayload(BottleTopic, i + 1)]
    else Outputs(i, s, f, mqttReady)
  }

  /**
   * As written, a configured scale that finds MQTT ready never publishes its level or its
   * reading: its visit ends with the null-payload publish, while the intended `Outputs` carries
   * the level on the bottle topic.
   */
  lemma BottlePublishAsWritten(i: nat, s: SM.Snapshot, f: Flags)
    requires s.configured && s.emptyWeight != s.fullWeight && f.mqtt
    ensures var out := OutputsAsWritten(i, s, f, true);
      && |out| > 0 && out[|out| - 1] == PublishNullPayload(BottleTopic, i + 1)
      && (forall e :: e in out ==> !e.Publish?)
      && Publish(BottleTopic, i + 1, FreshLevel(s)) in Outputs(i, s, f, true)
      && out != Outputs(i, s, f, true)
  {
  }

  /** Away from that publish, the visit as written and the intended one agree. */
  lemma AsWrittenElsewhere(i: nat, s: SM.Snapshot, f: Flags, mqttReady: bool)
    requires SM.SpanOk(s) && !(s.configured && f.mqtt && mqttReady)
    ensures OutputsAsWritten(i, s, f, mqttReady) == Outputs(i, s, f, mqttReady)
  {
  }

  /**
   * When the sensor does not answer, the error code -1 goes into the level computation, and
   * for a bottle whose full weight exceeds its empty weight the reported level is 100.
   */
  lemma SensorErrorReadsFull(s: SM.Snapshot)
    requires s.configured && !s.ready && s.emptyWeight < s.fullWeight
    ensures FreshLevel(s) == 100
  {
    SM.NegativeReadingIsFull(SM.SensorError, s.emptyWeight, s.fullWeight);
  }

  /**
   * The visit of manager `m` in slot `i`. A configured manager is read afresh through
   * `getCalculatedPercentage()` and publishes its cached value; an unconfigured one is read
   * after its outputs.
   */
  method Visit(m: SM.Manager, i: nat, f: Flags, mqttReady: bool) returns (out: seq<Effect>)
    requires m.IsConfigured() ==> m.emptyWeightGramms != m.fullWeightGramms
    modifies m`lastMedian
    ensures SM.SpanOk(old(m.Snap()))
    ensures m.lastMedian == SM.MedianAfterRead(old(m.Snap()))
    ensures out == Outputs(i, old(m.Snap()), f, mqttReady)
  {
    if m.IsConfigured() {
      var level := m.GetCalculatedPercentage(false);
      out := (if f.dac then [Dac(i + 1, level)] else []) + (if f.ble then [BleLevel(level)] else []);
      if f.mqtt && mqttReady {
        var cached := m.GetSensorMedianValue(true);
        out := out + [Publish(BottleTopic, i + 1, level), Publish(SensorTopic, i + 1, cached)];
      }
    } else {
      var level := -1;
      out := (if f.dac then [Dac(i + 1, 0)] else []) + (if f.ble then [BleLevel(level)] else []);
      var raw := m.GetSensorMedianValue(false);
    }
  }

  /** The visit of the manager in slot `i`, part way through a sensor round. */
  method VisitNext(g: Globals, m: SM.Manager, i: nat, f: Flags, mqttReady: bool,
                   ghost snaps: seq<SM.Snapshot>, ghost settings: seq<(SM.Calibration, string)>)
    returns (out: seq<Effect>)
    requires g.Valid() && SM.SpansOk(snaps) && i < |g.managers| && m == g.managers[i] && g.ReadUpTo(snaps, settings, i)
    modifies m`lastMedian
    ensures g.ReadUpTo(snaps, settings, i + 1)
    ensures out == Outputs(i, snaps[i], f, mqttReady)
  {
    out := Visit(m, i, f, mqttReady);
  }

  /** Every manager visited once, in slot order. */
  method VisitAll(g: Globals, mqttReady: seq<bool>) returns (effects: seq<Effect>)
    requires g.Valid() && g.LevelsDefined() && |mqttReady| == |g.managers|
    modifies g.managers
    ensures g.Valid() && g.LevelsDefined()
    ensures SM.SpansOk(old(g.Snapshots()))
    ensures effects == Round(old(g.Snapshots()), g.Features(), mqttReady)
    ensures g.ReadUpTo(old(g.Snapshots()), old(g.Settings()), |g.managers|)
  {
    ghost var snaps, settings := g.Snapshots(), g.Settings();
    effects := [];
    var f := g.Features();
    assert SM.SpansOk(snaps);
    for i := 0 to |g.managers|
      invariant SM.SpansOk(snaps[..i])
      invariant effects == Round(snaps[..i], f, mqttReady)
      invariant g.ReadUpTo(snaps, settings, i)
    {
      var out := VisitNext(g, g.managers[i], i, f, mqttReady[i], snaps, settings);
      assert snaps[..i + 1][..i] == snaps[..i];
      effects := effects + out;
    }
    assert snaps[..|g.managers|] == snaps;
  }

  /** The sensor block: every manager visited once, in slot order. */
  method SensorRound(g: Globals, mqttReady: seq<bool>) returns (effects: seq<Effect>)
    requires g.Valid() && g.LevelsDefined() && |mqttReady| == |g.managers|
    modifies g.managers
    ensures g.Valid() && g.LevelsDefined()
    ensures SM.SpansOk(old(g.Snapshots()))
    ensures effects == Round(old(g.Snapshots()), g.Features(), mqttReady)
    ensures g.Medians() == SM.MediansAfterRead(old(g.Snapshots())) && g.Settings() == old(g.Settings())
  {
    ghost var snaps := g.Snapshots();
    ghost var settings := g.Settings();
    effects := VisitAll(g, mqttReady);
    assert g.Medians() == SM.MediansAfterRead(snaps);
    assert g.Settings() == settings;
  }

  /** The sensor block, run when more than `sensorInterval` ms have passed; the timestamp is taken on entry. */
  method SensorBlock(g: Globals, now: uint64, mqttReady: seq<bool>) returns (effects: seq<Effect>)
    requires g.Valid() && g.LevelsDefined() && |mqttReady| == |g.managers|
    modifies g`lastSensorRead, g.managers
    ensures g.Valid() && g.LevelsDefined()
    ensures SM.SpansOk(old(g.Snapshots()))
    ensures var due := Due(now, old(g.lastSensorRead), SensorInterval);
      && g.lastSensorRead == (if due then now else old(g.lastSensorRead))
      && effects == (if due then Round(old(g.Snapshots()), g.Features(), mqttReady) else [])
      && g.Medians() == (if due then SM.MediansAfterRead(old(g.Snapshots())) else old(g.Medians()))
      && g.Settings() == old(g.Settings())
  {
    ghost var snaps := g.Snapshots();
    assert SM.SpansOk(snaps);
    effects := [];
    if Due(now, g.lastSensorRead, SensorInterval) {
      g.lastSensorRead := now;
      assert g.Snapshots() == snaps;
      effects := SensorRound(g, mqttReady);
    }
  }

  /**
   * One `loop()`. A pressed button runs the button block and the soft reset, which puts the
   * chip to sleep, so nothing else of the iteration happens; otherwise the service block, the
   * sensor block and `sleepOrDelay()`. `now` is the clock for the whole iteration.
   */
  method Loop(g: Globals, now: uint64, wifiConnected: bool, staMode: bool, mqttConnected: bool, mqttReady: seq<bool>)
    returns (effects: seq<Effect>)
    requires g.Valid() && g.LevelsDefined() && |mqttReady| == |g.managers|
    modifies g`buttonPressed, g`lastServiceCheck, g`lastSensorRead, g.managers
    ensures g.Valid() && g.LevelsDefined() && !g.buttonPressed
    ensures SM.SpansOk(old(g.Snapshots()))
    ensures old(g.buttonPressed) ==>
      && effects == ButtonEffects(true, g.Features(), g.preferences.Visible(), g.hostName) + SoftResetEffects(g.Features())
      && g.lastServiceCheck == old(g.lastServiceCheck) && g.lastSensorRead == old(g.lastSensorRead)
      && g.Snapshots() == old(g.Snapshots())
    ensures !old(g.buttonPressed) ==>
      var serviceDue := Due(now, old(g.lastServiceCheck), ServiceInterval);
      var sensorDue := Due(now, old(g.lastSensorRead), SensorInterval);
      && g.lastServiceCheck == (if serviceDue then now else old(g.lastServiceCheck))
      && g.lastSensorRead == (if sensorDue then now else old(g.lastSensorRead))
      && g.Medians() == (if sensorDue then SM.MediansAfterRead(old(g.Snapshots())) else old(g.Medians()))
      && g.Settings() == old(g.Settings())
      && effects ==
           ServiceEffects(serviceDue, g.Features(), wifiConnected, staMode, mqttConnected)
           + (if sensorDue then Round(old(g.Snapshots()), g.Features(), mqttReady) else [])
           + [SleepOrDelay(g.Features())]
  {
    ghost var snaps, medians, settings := g.Snapshots(), g.Medians(), g.Settings();
    var pressed := g.buttonPressed;
    var button := HandleButton(g);
    assert g.Snapshots() == snaps && g.Medians() == medians && g.Settings() == settings;
    if pressed {
      effects := button + SoftResetEffects(g.Features());
      return;
    }
    var service := ServiceCheck(g, now, wifiConnected, staMode, mqttConnected);
    assert g.Snapshots() == snaps && g.Medians() == medians && g.Settings() == settings;
    ghost var f := g.Features();
    var sensor := SensorBlock(g, now, mqttReady);
    assert g.Features() == f;
    effects := service + sensor + [SleepOrDelay(g.Features())];
  }

  /** A pressed button always ends the iteration with a soft reset. */
  lemma ButtonEndsInReset(f: Flags, ns: Nvs.Namespace, hostName: string)
    ensures var effects := ButtonEffects(true, f, ns, hostName) + SoftResetEffects(f);
      |effects| >= 1 && effects[|effects| - 1] == SoftReset && !(SoftReset in ButtonEffects(true, f, ns, hostName))
  {
  }
}
