/**
 * `loop()` of `main.cpp`: the button block, the service block, and every `sensorInterval`
 * one fresh reading per manager in slot order, levels from the cached reading, DAC, BLE and
 * MQTT outputs, and a status event; then `sleepOrDelay()`.
 */
module MainLoop {
  import opened Wrappers
  import opened Machine
  import opened Global
  import opened Firmware
  import SM = ScaleManager

  /** The level a configured manager reports: that of the cached reading the fresh read left. */
  function ReportedLevel(s: SM.Snapshot): (pct: int)
    requires s.configured && s.emptyWeight != s.fullWeight
    ensures 0 <= pct <= 100
  {
    SM.Percentage(SM.MedianAfterRead(s), s.emptyWeight, s.fullWeight)
  }

  /** The outputs of the visit of manager `i`. */
  function Outputs(i: nat, s: SM.Snapshot, f: Flags, mqttReady: bool): seq<Effect>
    requires SM.SpanOk(s)
  {
    if s.configured then
      var level := ReportedLevel(s);
      (if f.dac then [Dac(i + 1, level)] else [])
      + (if f.ble then [BleLevel(level)] else [])
      + (if f.mqtt && mqttReady then [Publish(LevelTopic, i + 1, level), Publish(SensorValueTopic, i + 1, SM.ReadValue(s))]
         else [])
    else
      (if f.dac then [Dac(i + 1, 0)] else []) + (if f.ble then [BleLevel(0)] else [])
  }

  /** The element of the status array for manager `i`. */
  function Row(i: nat, s: SM.Snapshot): StatusRow
    requires SM.SpanOk(s)
  {
    StatusRow(i, SM.ReadValue(s), if s.configured then Some(ReportedLevel(s)) else None)
  }

  /**
   * The outputs of one sensor block over managers with the given snapshots, in slot order.
   * `mqttReady[i]` is what `Mqtt.isReady()` answers when manager `i` is visited: the source asks
   * again for every manager, and the connection can drop part way through a round.
   */
  function Round(snaps: seq<SM.Snapshot>, f: Flags, mqttReady: seq<bool>): seq<Effect>
    requires SM.SpansOk(snaps) && |snaps| <= |mqttReady|
    decreases |snaps|
  {
    if snaps == [] then []
    else Round(snaps[..|snaps| - 1], f, mqttReady) + Outputs(|snaps| - 1, snaps[|snaps| - 1], f, mqttReady[|snaps| - 1])
  }

  /** The status array of one sensor block: one element per manager, with its index as id. */
  function Rows(snaps: seq<SM.Snapshot>): (rows: seq<StatusRow>)
    requires SM.SpansOk(snaps)
    ensures |rows| == |snaps|
    decreases |snaps|
  {
    if snaps == [] then [] else Rows(snaps[..|snaps| - 1]) + [Row(|snaps| - 1, snaps[|snaps| - 1])]
  }

  /** Element `k` of the status array is the row of manager `k`, whose id is `k`. */
  lemma {:induction false} RowsElements(snaps: seq<SM.Snapshot>)
    requires SM.SpansOk(snaps)
    ensures forall k :: 0 <= k < |snaps| ==> Rows(snaps)[k] == Row(k, snaps[k]) && Rows(snaps)[k].id == k
    decreases |snaps|
  {
    if snaps != [] {
      var n := |snaps|;
      var front := snaps[..n - 1];
      assert forall k :: 0 <= k < n - 1 ==> front[k] == snaps[k];
      RowsElements(front);
    }
  }

  /**
   * A publish of a sensor block is allowed: MQTT on and ready, from a configured scale (named
   * with its 1-based number), carrying that scale's level or its fresh reading.
   */
  predicate PublishAllowed(snaps: seq<SM.Snapshot>, f: Flags, mqttReady: seq<bool>, e: Effect)
    requires SM.SpansOk(snaps) && |snaps| <= |mqttReady| && e.Publish?
  {
    && f.mqtt && 1 <= e.scale <= |snaps| && mqttReady[e.scale - 1]
    && var s := snaps[e.scale - 1];
       && s.configured
       && ((e.subject == LevelTopic && e.value == ReportedLevel(s)) ||
           (e.subject == SensorValueTopic && e.value == SM.ReadValue(s)))
  }

  /** The publishes of the last manager's visit are allowed. */
  lemma LastPublishesAllowed(snaps: seq<SM.Snapshot>, f: Flags, mqttReady: seq<bool>)
    requires SM.SpansOk(snaps) && |snaps| <= |mqttReady| && snaps != []
    ensures forall e :: e in Outputs(|snaps| - 1, snaps[|snaps| - 1], f, mqttReady[|snaps| - 1]) && e.Publish? ==>
      PublishAllowed(snaps, f, mqttReady, e)
  {
  }

  /** Only configured scales publish, and only when MQTT is on and ready at their visit. */
  lemma {:induction false} PublishesOnlyConfigured(snaps: seq<SM.Snapshot>, f: Flags, mqttReady: seq<bool>)
    requires SM.SpansOk(snaps) && |snaps| <= |mqttReady|
    ensures forall e :: e in Round(snaps, f, mqttReady) && e.Publish? ==> PublishAllowed(snaps, f, mqttReady, e)
    decreases |snaps|
  {
    if snaps != [] {
      var n := |snaps|;
      var front := snaps[..n - 1];
      assert forall k :: 0 <= k < n - 1 ==> front[k] == snaps[k];
      PublishesOnlyConfigured(front, f, mqttReady);
      LastPublishesAllowed(snaps, f, mqttReady);
      var last := Outputs(n - 1, snaps[n - 1], f, mqttReady[n - 1]);
      forall e | e in Round(snaps, f, mqttReady) && e.Publish?
        ensures PublishAllowed(snaps, f, mqttReady, e)
      {
        if e !in last {
          assert e in Round(front, f, mqttReady);
          assert PublishAllowed(front, f, mqttReady, e);
        }
      }
    }
  }

  /** With MQTT on and ready, a configured last scale publishes its level and its reading. */
  lemma LastScalePublishes(snaps: seq<SM.Snapshot>, f: Flags, mqttReady: seq<bool>)
    requires SM.SpansOk(snaps) && |snaps| <= |mqttReady| && f.mqtt && snaps != [] && mqttReady[|snaps| - 1] && snaps[|snaps| - 1].configured
    ensures Publish(LevelTopic, |snaps|, ReportedLevel(snaps[|snaps| - 1])) in Round(snaps, f, mqttReady)
    ensures Publish(SensorValueTopic, |snaps|, SM.ReadValue(snaps[|snaps| - 1])) in Round(snaps, f, mqttReady)
  {
    var last := Outputs(|snaps| - 1, snaps[|snaps| - 1], f, mqttReady[|snaps| - 1]);
    assert Publish(LevelTopic, |snaps|, ReportedLevel(snaps[|snaps| - 1])) in last;
    assert Publish(SensorValueTopic, |snaps|, SM.ReadValue(snaps[|snaps| - 1])) in last;
  }

  /** With MQTT on, every configured scale that finds MQTT ready publishes its level and its reading. */
  lemma {:induction false} ConfiguredScalesPublish(snaps: seq<SM.Snapshot>, f: Flags, mqttReady: seq<bool>, k: nat)
    requires SM.SpansOk(snaps) && |snaps| <= |mqttReady| && f.mqtt && k < |snaps| && mqttReady[k] && snaps[k].configured
    ensures Publish(LevelTopic, k + 1, ReportedLevel(snaps[k])) in Round(snaps, f, mqttReady)
    ensures Publish(SensorValueTopic, k + 1, SM.ReadValue(snaps[k])) in Round(snaps, f, mqttReady)
    decreases |snaps|
  {
    var n := |snaps|;
    if k < n - 1 {
      var front := snaps[..n - 1];
      assert forall j :: 0 <= j < n - 1 ==> front[j] == snaps[j];
      ConfiguredScalesPublish(front, f, mqttReady, k);
    } else {
      LastScalePublishes(snaps, f, mqttReady);
    }
  }

  /** With the DAC on, an unconfigured scale drives its DAC channel to 0. */
  lemma {:induction false} UnconfiguredDacZero(snaps: seq<SM.Snapshot>, f: Flags, mqttReady: seq<bool>, k: nat)
    requires SM.SpansOk(snaps) && |snaps| <= |mqttReady| && f.dac && k < |snaps| && !snaps[k].configured
    ensures Dac(k + 1, 0) in Round(snaps, f, mqttReady)
    decreases |snaps|
  {
    var n := |snaps|;
    var last := Outputs(n - 1, snaps[n - 1], f, mqttReady[n - 1]);
    if k < n - 1 {
      var front := snaps[..n - 1];
      assert front[k] == snaps[k];
      UnconfiguredDacZero(front, f, mqttReady, k);
      assert Round(snaps, f, mqttReady) == Round(front, f, mqttReady) + last;
    } else {
      assert Dac(n, 0) in last;
    }
  }

  /** With BLE on, an unconfigured scale sends BLE level 0. */
  lemma {:induction false} UnconfiguredBleZero(snaps: seq<SM.Snapshot>, f: Flags, mqttReady: seq<bool>, k: nat)
    requires SM.SpansOk(snaps) && |snaps| <= |mqttReady| && f.ble && k < |snaps| && !snaps[k].configured
    ensures BleLevel(0) in Round(snaps, f, mqttReady)
    decreases |snaps|
  {
    var n := |snaps|;
    var last := Outputs(n - 1, snaps[n - 1], f, mqttReady[n - 1]);
    if k < n - 1 {
      var front := snaps[..n - 1];
      assert front[k] == snaps[k];
      UnconfiguredBleZero(front, f, mqttReady, k);
      assert Round(snaps, f, mqttReady) == Round(front, f, mqttReady) + last;
    } else {
      assert BleLevel(0) in last;
    }
  }

  /**
   * An unconfigured scale drives its DAC channel and the BLE level to 0 and publishes
   * nothing, whatever the MQTT state.
   */
  lemma UnconfiguredOutputs(snaps: seq<SM.Snapshot>, f: Flags, mqttReady: seq<bool>, k: nat)
    requires SM.SpansOk(snaps) && |snaps| <= |mqttReady| && k < |snaps| && !snaps[k].configured
    ensures f.dac ==> Dac(k + 1, 0) in Round(snaps, f, mqttReady)
    ensures f.ble ==> BleLevel(0) in Round(snaps, f, mqttReady)
    ensures forall e :: e in Round(snaps, f, mqttReady) && e.Publish? ==> e.scale != k + 1
  {
    if f.dac {
      UnconfiguredDacZero(snaps, f, mqttReady, k);
    }
    if f.ble {
      UnconfiguredBleZero(snaps, f, mqttReady, k);
    }
    PublishesOnlyConfigured(snaps, f, mqttReady);
    forall e | e in Round(snaps, f, mqttReady) && e.Publish?
      ensures e.scale != k + 1
    {
      assert PublishAllowed(snaps, f, mqttReady, e);
    }
  }

  /** The BLE and DAC values of the last manager's visit are in range. */
  lemma LastOutputsInRange(snaps: seq<SM.Snapshot>, f: Flags, mqttReady: seq<bool>)
    requires SM.SpansOk(snaps) && |snaps| <= |mqttReady| && snaps != []
    ensures forall e :: e in Outputs(|snaps| - 1, snaps[|snaps| - 1], f, mqttReady[|snaps| - 1]) && e.BleLevel? ==> 0 <= e.value <= 100
    ensures forall e :: e in Outputs(|snaps| - 1, snaps[|snaps| - 1], f, mqttReady[|snaps| - 1]) && e.Dac? ==>
      1 <= e.channel <= |snaps| && 0 <= e.value <= 100
  {
  }

  /** Every DAC and BLE value of a sensor block is a level in [0, 100]; DAC channels are 1-based scale numbers. */
  lemma {:induction false} OutputsInRange(snaps: seq<SM.Snapshot>, f: Flags, mqttReady: seq<bool>)
    requires SM.SpansOk(snaps) && |snaps| <= |mqttReady|
    ensures forall e :: e in Round(snaps, f, mqttReady) && e.BleLevel? ==> 0 <= e.value <= 100
    ensures forall e :: e in Round(snaps, f, mqttReady) && e.Dac? ==> 1 <= e.channel <= |snaps| && 0 <= e.value <= 100
    decreases |snaps|
  {
    if snaps != [] {
      var n := |snaps|;
      var front := snaps[..n - 1];
      assert forall k :: 0 <= k < n - 1 ==> front[k] == snaps[k];
      OutputsInRange(front, f, mqttReady);
      LastOutputsInRange(snaps, f, mqttReady);
      var last := Outputs(n - 1, snaps[n - 1], f, mqttReady[n - 1]);
      forall e | e in Round(snaps, f, mqttReady)
        ensures e in Round(front, f, mqttReady) || e in last
      {
      }
    }
  }

  /**
   * When the sensor does not answer, the reading published is the error code -1 while the
   * level stays that of the last good reading.
   */
  lemma SensorErrorKeepsLastLevel(s: SM.Snapshot)
    requires s.configured && s.emptyWeight != s.fullWeight && !s.ready
    ensures SM.ReadValue(s) == SM.SensorError
    ensures ReportedLevel(s) == SM.Percentage(s.lastMedian, s.emptyWeight, s.fullWeight)
  {
  }

  /**
   * The visit of manager `m` in slot `i`: one fresh reading (`getSensorMedianValue()`), then
   * for a configured manager the level of the cached value (`getCalculatedPercentage(true)`).
   */
  method Visit(m: SM.Manager, i: nat, f: Flags, mqttReady: bool) returns (out: seq<Effect>, row: StatusRow)
    requires m.IsConfigured() ==> m.emptyWeightGramms != m.fullWeightGramms
    modifies m`lastMedian
    ensures SM.SpanOk(old(m.Snap()))
    ensures m.lastMedian == SM.MedianAfterRead(old(m.Snap()))
    ensures out == Outputs(i, old(m.Snap()), f, mqttReady) && row == Row(i, old(m.Snap()))
  {
    var sensorValue := m.GetSensorMedianValue(false);
    var level: Option<int>;
    if m.IsConfigured() {
      var pct := m.GetCalculatedPercentage(true);
      out := (if f.dac then [Dac(i + 1, pct)] else [])
             + (if f.ble then [BleLevel(pct)] else [])
             + (if f.mqtt && mqttReady then [Publish(LevelTopic, i + 1, pct), Publish(SensorValueTopic, i + 1, sensorValue)]
                else []);
      level := Some(pct);
    } else {
      out := (if f.dac then [Dac(i + 1, 0)] else []) + (if f.ble then [BleLevel(0)] else []);
      level := None;
    }
    row := StatusRow(i, sensorValue, level);
  }

  /** The visit of the manager in slot `i`, part way through a sensor round. */
  method VisitNext(g: Globals, m: SM.Manager, i: nat, f: Flags, mqttReady: bool,
                   ghost snaps: seq<SM.Snapshot>, ghost settings: seq<(SM.Calibration, string)>)
    returns (out: seq<Effect>, row: StatusRow)
    requires g.Valid() && SM.SpansOk(snaps) && i < |g.managers| && m == g.managers[i] && g.ReadUpTo(snaps, settings, i)
    modifies m`lastMedian
    ensures g.ReadUpTo(snaps, settings, i + 1)
    ensures out == Outputs(i, snaps[i], f, mqttReady) && row == Row(i, snaps[i])
  {
    out, row := Visit(m, i, f, mqttReady);
  }

  /** Every manager visited once, in slot order. */
  method VisitAll(g: Globals, mqttReady: seq<bool>) returns (effects: seq<Effect>, rows: seq<StatusRow>)
    requires g.Valid() && g.LevelsDefined() && |mqttReady| == |g.managers|
    modifies g.managers
    ensures g.Valid() && g.LevelsDefined()
    ensures SM.SpansOk(old(g.Snapshots()))
    ensures effects == Round(old(g.Snapshots()), g.Features(), mqttReady)
    ensures rows == Rows(old(g.Snapshots()))
    ensures g.ReadUpTo(old(g.Snapshots()), old(g.Settings()), |g.managers|)
  {
    ghost var snaps, settings := g.Snapshots(), g.Settings();
    effects, rows := [], [];
    var f := g.Features();
    assert SM.SpansOk(snaps);
    for i := 0 to |g.managers|
      invariant SM.SpansOk(snaps[..i])
      invariant effects == Round(snaps[..i], f, mqttReady) && rows == Rows(snaps[..i])
      invariant g.ReadUpTo(snaps, settings, i)
    {
      var out, row := VisitNext(g, g.managers[i], i, f, mqttReady[i], snaps, settings);
      assert snaps[..i + 1][..i] == snaps[..i];
      effects := effects + out;
      rows := rows + [row];
    }
    assert snaps[..|g.managers|] == snaps;
  }

  /** The sensor block: every manager visited once, in slot order. */
  method SensorRound(g: Globals, mqttReady: seq<bool>) returns (effects: seq<Effect>, rows: seq<StatusRow>)
    requires g.Valid() && g.LevelsDefined() && |mqttReady| == |g.managers|
    modifies g.managers
    ensures g.Valid() && g.LevelsDefined()
    ensures SM.SpansOk(old(g.Snapshots()))
    ensures effects == Round(old(g.Snapshots()), g.Features(), mqttReady)
    ensures rows == Rows(old(g.Snapshots()))
    ensures g.Medians() == SM.MediansAfterRead(old(g.Snapshots())) && g.Settings() == old(g.Settings())
  {
    ghost var snaps := g.Snapshots();
    ghost var settings := g.Settings();
    effects, rows := VisitAll(g, mqttReady);
    assert g.Medians() == SM.MediansAfterRead(snaps);
    assert g.Settings() == settings;
  }

  /** The sensor block, run when more than `sensorInterval` ms have passed; the timestamp is taken on entry. */
  method SensorBlock(g: Globals, now: uint64, mqttReady: seq<bool>) returns (effects: seq<Effect>)
    requires g.Valid() && g.LevelsDefined() && |mqttReady| == |g.managers|
    modifies g`lastSensorRead, g.managers
    ensures g.Valid() && g.LevelsDefined()
    ensures SM.SpansOk(old(g.Snapshots()))
    ensures var due := Due(now, old(g.lastSensorRead), SensorInterval);
      && g.lastSensorRead == (if due then now else old(g.lastSensorRead))
      && effects == (if due then Round(old(g.Snapshots()), g.Features(), mqttReady) + [Status(Rows(old(g.Snapshots())))]
                     else [])
      && g.Medians() == (if due then SM.MediansAfterRead(old(g.Snapshots())) else old(g.Medians()))
      && g.Settings() == old(g.Settings())
  {
    ghost var snaps := g.Snapshots();
    assert SM.SpansOk(snaps);
    effects := [];
    if Due(now, g.lastSensorRead, SensorInterval) {
      g.lastSensorRead := now;
      assert g.Snapshots() == snaps;
      var round, rows := SensorRound(g, mqttReady);
      effects := round + [Status(rows)];
    }
  }

  /** The button block followed by the service block. */
  method ButtonAndServices(g: Globals, now: uint64, wifiConnected: bool, staMode: bool, mqttConnected: bool)
    returns (effects: seq<Effect>)
    modifies g`buttonPressed, g`lastServiceCheck
    ensures !g.buttonPressed
    ensures var serviceDue := Due(now, old(g.lastServiceCheck), ServiceInterval);
      && g.lastServiceCheck == (if serviceDue then now else old(g.lastServiceCheck))
      && effects == ButtonEffects(old(g.buttonPressed), g.Features(), g.preferences.Visible(), g.hostName)
                    + ServiceEffects(serviceDue, g.Features(), wifiConnected, staMode, mqttConnected)
  {
    var button := HandleButton(g);
    var service := ServiceCheck(g, now, wifiConnected, staMode, mqttConnected);
    effects := button + service;
  }

  /**
   * One `loop()`: the button block, the service block, the sensor block, and
   * `sleepOrDelay()`. `now` is the clock for the whole iteration.
   */
  method Loop(g: Globals, now: uint64, wifiConnected: bool, staMode: bool, mqttConnected: bool, mqttReady: seq<bool>)
    returns (effects: seq<Effect>)
    requires g.Valid() && g.LevelsDefined() && |mqttReady| == |g.managers|
    modifies g`buttonPressed, g`lastServiceCheck, g`lastSensorRead, g.managers
    ensures g.Valid() && g.LevelsDefined() && !g.buttonPressed
    ensures SM.SpansOk(old(g.Snapshots()))
    ensures var serviceDue := Due(now, old(g.lastServiceCheck), ServiceInterval);
      var sensorDue := Due(now, old(g.lastSensorRead), SensorInterval);
      && g.lastServiceCheck == (if serviceDue then now else old(g.lastServiceCheck))
      && g.lastSensorRead == (if sensorDue then now else old(g.lastSensorRead))
      && g.Medians() == (if sensorDue then SM.MediansAfterRead(old(g.Snapshots())) else old(g.Medians()))
      && g.Settings() == old(g.Settings())
      && effects ==
           ButtonEffects(old(g.buttonPressed), g.Features(), g.preferences.Visible(), g.hostName)
           + ServiceEffects(serviceDue, g.Features(), wifiConnected, staMode, mqttConnected)
           + (if sensorDue then Round(old(g.Snapshots()), g.Features(), mqttReady) + [Status(Rows(old(g.Snapshots())))]
              else [])
           + [SleepOrDelay(g.Features())]
  {
    ghost var snaps, medians, settings := g.Snapshots(), g.Medians(), g.Settings();
    var first := ButtonAndServices(g, now, wifiConnected, staMode, mqttConnected);
    assert g.Snapshots() == snaps && g.Medians() == medians && g.Settings() == settings;
    ghost var f, visible, hostName := g.Features(), g.preferences.Visible(), g.hostName;
    var sensor := SensorBlock(g, now, mqttReady);
    assert g.Features() == f && g.preferences.Visible() == visible && g.hostName == hostName;
    effects := first + sensor + [SleepOrDelay(g.Features())];
  }
}
