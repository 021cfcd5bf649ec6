/**
 * The per-bottle scale manager: the calibration it caches (scale factor and tare offset
 * of the HX711, the bottle's empty and full weights), the last reading, loading and
 * persisting that calibration in its own NVS namespace, the two-step calibration
 * ritual (zero the scale, then scale it against a known weight) and the fill level.
 */
module ScaleManager {
  import opened Machine
  import opened Nvs
  import Hx711

  /** Namespace a manager uses until `begin` names its own. */
  const DefaultNamespace: string := "gas-scale"
  /** Bottle weights assumed when the store holds none: an 11 kg aluminium bottle. */
  const DefaultEmptyWeight: uint32 := 5500
  const DefaultFullWeight: uint32 := 16500
  /** Readiness polling and sample count of one fresh reading. */
  const ReadyRetries: nat := 100
  const ReadyDelayMs: nat := 5
  const Samples: nat := 10
  /** What an uncached reading returns when the HX711 does not answer. */
  const SensorError: int32 := -1

  /** The four persisted fields, under the keys `scale`, `tare`, `emptyWeight`, `fullWeight`. */
  datatype Calibration = Calibration(scale: real, tare: int32, emptyWeight: uint32, fullWeight: uint32)

  /** What `begin` loads from a namespace that holds none of the keys. */
  const Defaults: Calibration := Calibration(Hx711.DefaultScale, 0, DefaultEmptyWeight, DefaultFullWeight)

  /** `isConfigured()`: a scale factor other than the driver default and a tare other than 0. */
  predicate Configured(c: Calibration) {
    c.scale != Hx711.DefaultScale && c.tare != 0
  }

  /** The namespace contents `writeToNVS` leaves behind (it clears the namespace first). */
  function Encode(c: Calibration): (ns: Namespace)
    ensures ns.Keys == {"scale", "tare", "emptyWeight", "fullWeight"}
  {
    map["scale" := FloatVal(c.scale), "tare" := LongVal(c.tare),
        "emptyWeight" := UIntVal(c.emptyWeight), "fullWeight" := UIntVal(c.fullWeight)]
  }

  /** What `begin` loads: each field's stored value, or its default. */
  function Decode(ns: Namespace): Calibration {
    Calibration(
      GetFloat(ns, "scale", Hx711.DefaultScale),
      GetLong(ns, "tare", 0),
      GetUInt(ns, "emptyWeight", DefaultEmptyWeight),
      GetUInt(ns, "fullWeight", DefaultFullWeight))
  }

  /** Persisting a calibration and loading it again gives it back unchanged. */
  lemma DecodeEncode(c: Calibration)
    ensures Decode(Encode(c)) == c
  {
  }

  /** An empty (or never written) namespace loads the defaults, which are not configured. */
  lemma DecodeEmpty()
    ensures Decode(map[]) == Defaults
    ensures !Configured(Defaults)
  {
  }

  /**
   * A loaded calibration is configured exactly when the namespace holds a float `scale`
   * other than 1.0 and a `tare` stored as a long other than 0.
   */
  lemma ConfiguredAfterLoad(ns: Namespace)
    ensures Configured(Decode(ns)) <==>
      ("scale" in ns && ns["scale"].FloatVal? && ns["scale"].f != Hx711.DefaultScale &&
       "tare" in ns && ns["tare"].LongVal? && ns["tare"].l != 0)
  {
  }

  // ---------------------------------------------------------------------------
  // Fill level

  /**
   * `currentGasWeight`: the comparison `val > emptyWeightGramms` and the subtraction are
   * done in unsigned 32-bit arithmetic, so a negative reading counts as a huge one.
   */
  function GasWeight(val: int32, empty: uint32): (g: uint32)
    ensures 0 <= val ==> g == if val > empty then val - empty else 0
    ensures val < 0 && empty < val + TWO_32 ==> g == val + TWO_32 - empty
    ensures val < 0 && val + TWO_32 <= empty ==> g == 0
  {
    var u := ToUint32(val);
    if u > empty then u - empty else 0
  }

  /** `maxGasWeight`: `full - empty` modulo 2^32; zero exactly when the weights are equal. */
  function Span(empty: uint32, full: uint32): (s: uint32)
    ensures empty <= full ==> s == full - empty
    ensures full < empty ==> s == full - empty + TWO_32
    ensures s == 0 <==> empty == full
  {
    ToUint32(full - empty)
  }

  /**
   * The level of a gas weight `g` in a span `s`: the float quotient (computed exactly
   * here) times 100, truncated by the cast to `int`, clamped to [0,100].
   */
  function Level(g: uint32, s: uint32): (pct: int)
    requires s != 0
    ensures 0 <= pct <= 100
  {
    var p := FloatToInt32(g as real / s as real * 100.0);
    if p < 0 then 0 else if p > 100 then 100 else p
  }

  /**
   * `getCalculatedPercentage` once the reading `val` is fixed. Equal weights would divide
   * by zero, which the firmware does not guard.
   */
  function Percentage(val: int32, empty: uint32, full: uint32): (pct: int)
    requires empty != full
    ensures 0 <= pct <= 100
  {
    Level(GasWeight(val, empty), Span(empty, full))
  }

  /** Scaling the quotient by 100 is the quotient of the scaled numerator. */
  lemma ScaledQuotient(g: nat, s: nat)
    requires s > 0
    ensures g as real / s as real * 100.0 == (g * 100) as real / s as real
  {
  }

  /** A real quotient of naturals is the integer quotient plus a fraction in [0, 1). */
  lemma QuotientSplit(n: nat, s: nat)
    requires s > 0
    ensures var q := (n / s) as real;
      q <= n as real / s as real < q + 1.0
  {
    var q, r := n / s, n % s;
    assert n as real == q as real * s as real + r as real;
    assert n as real / s as real == q as real + r as real / s as real;
    assert 0.0 <= r as real / s as real < 1.0;
  }

  /** Truncating the real quotient `g / s * 100` is integer division of `g * 100` by `s`. */
  lemma TruncatedRatio(g: nat, s: nat)
    requires s > 0
    ensures Trunc(g as real / s as real * 100.0) == g * 100 / s
  {
    var x := g as real / s as real * 100.0;
    ScaledQuotient(g, s);
    QuotientSplit(g * 100, s);
    var q := g * 100 / s;
    assert q as real <= x < q as real + 1.0;
    var t := Trunc(x);
    assert t as real <= x < t as real + 1.0;
  }

  lemma MulDivUpper(x: nat, s: nat, k: nat)
    requires s > 0 && x < k * s
    ensures x / s < k
  {
    var q, r := x / s, x % s;
    assert x == q * s + r;
    assert (k - q) * s > 0;
  }

  lemma MulDivLower(x: nat, s: nat, k: nat)
    requires s > 0 && k * s <= x
    ensures k <= x / s
  {
    var q, r := x / s, x % s;
    assert x == q * s + r;
    assert (q + 1 - k) * s > 0;
  }

  /** The level in integer terms: 100 from a full span on, else `g * 100 / s` rounded down. */
  lemma LevelExact(g: uint32, s: uint32)
    requires s != 0
    ensures Level(g, s) == if g >= s then 100 else g * 100 / s
  {
    TruncatedRatio(g, s);
    if g >= s {
      MulDivLower(g * 100, s, 100);
    } else {
      MulDivUpper(g * 100, s, 100);
    }
  }

  /** For every reading and every pair of distinct weights, the level in integer terms. */
  lemma PercentageOfWeights(val: int32, empty: uint32, full: uint32)
    requires empty != full
    ensures var g, s := GasWeight(val, empty), Span(empty, full);
      Percentage(val, empty, full) == if g >= s then 100 else g * 100 / s
  {
    LevelExact(GasWeight(val, empty), Span(empty, full));
  }

  /**
   * With `full > empty` and a non-negative reading: 0 up to the empty weight, 100 from the
   * full weight on, and in between the truncated (not rounded) share of the span.
   */
  lemma PercentageInRange(val: int32, empty: uint32, full: uint32)
    requires empty < full && 0 <= val
    ensures Percentage(val, empty, full) ==
      if val <= empty then 0
      else if val >= full then 100
      else (val - empty) * 100 / (full - empty)
  {
    PercentageOfWeights(val, empty, full);
  }

  /** With the default bottle, 11000 g reads 50%, 5500 g reads 0% and 20000 g reads 100%. */
  lemma DefaultBottleLevels()
    ensures Percentage(11000, DefaultEmptyWeight, DefaultFullWeight) == 50
    ensures Percentage(5500, DefaultEmptyWeight, DefaultFullWeight) == 0
    ensures Percentage(20000, DefaultEmptyWeight, DefaultFullWeight) == 100
  {
    PercentageInRange(11000, DefaultEmptyWeight, DefaultFullWeight);
    PercentageInRange(5500, DefaultEmptyWeight, DefaultFullWeight);
    PercentageInRange(20000, DefaultEmptyWeight, DefaultFullWeight);
  }

  /**
   * A negative reading, the error code -1 among them, is above the full weight once
   * interpreted as unsigned, so it reads as a full bottle.
   */
  lemma NegativeReadingIsFull(val: int32, empty: uint32, full: uint32)
    requires empty < full && val < 0 && full <= val + TWO_32
    ensures Percentage(val, empty, full) == 100
  {
    PercentageOfWeights(val, empty, full);
  }

  lemma DivMonotonic(a: nat, b: nat, s: nat)
    requires a <= b && s > 0
    ensures a / s <= b / s
  {
    var q := a / s;
    assert q * s <= a;
    MulDivLower(b, s, q);
  }

  lemma LevelMonotonic(g1: uint32, g2: uint32, s: uint32)
    requires g1 <= g2 && s != 0
    ensures Level(g1, s) <= Level(g2, s)
  {
    LevelExact(g1, s);
    LevelExact(g2, s);
    if g2 < s {
      DivMonotonic(g1 * 100, g2 * 100, s);
    }
  }

  /** A heavier bottle never reads a lower level (non-negative readings, `full > empty`). */
  lemma PercentageMonotonic(v1: int32, v2: int32, empty: uint32, full: uint32)
    requires empty < full && 0 <= v1 <= v2
    ensures Percentage(v1, empty, full) <= Percentage(v2, empty, full)
  {
    LevelMonotonic(GasWeight(v1, empty), GasWeight(v2, empty), Span(empty, full));
  }

  // ---------------------------------------------------------------------------
  // One visit of the acquisition loop

  /** What one visit of a manager by the acquisition loop depends on. */
  datatype Snapshot = Snapshot(configured: bool, ready: bool, units: real, lastMedian: int32,
                               emptyWeight: uint32, fullWeight: uint32)

  /** What a fresh (uncached) reading returns. */
  function ReadValue(s: Snapshot): int32 {
    if s.ready then FloatToInt32(s.units) else SensorError
  }

  /** The cached reading after a fresh one: unchanged when the sensor did not answer. */
  function MedianAfterRead(s: Snapshot): int32 {
    if s.ready then FloatToInt32(s.units) else s.lastMedian
  }

  /** A configured scale whose empty and full weights differ, so that its level is defined. */
  predicate SpanOk(s: Snapshot) {
    s.configured ==> s.emptyWeight != s.fullWeight
  }

  predicate SpansOk(snaps: seq<Snapshot>) {
    forall k :: 0 <= k < |snaps| ==> SpanOk(snaps[k])
  }

  /**
   * The cached readings after one fresh reading of every scale: a scale whose sensor answered
   * caches what the fresh read returned, and any other keeps its previous reading.
   */
  function MediansAfterRead(snaps: seq<Snapshot>): (m: seq<int32>)
    ensures |m| == |snaps|
    ensures forall i :: 0 <= i < |snaps| && snaps[i].ready ==> m[i] == ReadValue(snaps[i])
    ensures forall i :: 0 <= i < |snaps| && !snaps[i].ready ==> m[i] == snaps[i].lastMedian
  {
    seq(|snaps|, i requires 0 <= i < |snaps| => MedianAfterRead(snaps[i]))
  }

  // ---------------------------------------------------------------------------
  // The manager object

  class Manager {
    var nvs: string
    var lastMedian: int32
    var scale: real
    var tare: int32
    var emptyWeightGramms: uint32
    var fullWeightGramms: uint32
    const hx711: Hx711.Sensor
    const preferences: Preferences

    /** Between operations the manager's store handle is closed. */
    ghost predicate Valid()
      reads preferences
    {
      !preferences.started
    }

    /** The cached calibration. */
    function Cal(): Calibration
      reads `scale, `tare, `emptyWeightGramms, `fullWeightGramms
    {
      Calibration(scale, tare, emptyWeightGramms, fullWeightGramms)
    }

    /** The calibration `writeToNVS` persists: scale and offset come from the sensor. */
    function SensorCal(): Calibration
      reads this, hx711
    {
      Calibration(hx711.scale, hx711.offset, emptyWeightGramms, fullWeightGramms)
    }

    predicate IsConfigured()
      reads `scale, `tare, `emptyWeightGramms, `fullWeightGramms
    {
      Configured(Cal())
    }

    function Snap(): Snapshot
      reads this, hx711
    {
      Snapshot(IsConfigured(), hx711.ready, hx711.units, lastMedian, emptyWeightGramms, fullWeightGramms)
    }

    /**
     * `SCALEMANAGER(dout, pd_sck)`: the driver is begun on the pins with gain 64 and then
     * set to gain 128. The bottle weights, declared nowhere in the header, start as the
     * zero of static storage.
     */
    constructor (dout: uint8, pdSck: uint8, flash: Flash)
      ensures Valid() && fresh(hx711) && fresh(preferences) && preferences.flash == flash
      ensures nvs == DefaultNamespace && lastMedian == 0 && scale == 1.0 && tare == 0
      ensures emptyWeightGramms == 0 && fullWeightGramms == 0
      ensures hx711.dout == dout && hx711.pdSck == pdSck && hx711.gain == 128
      ensures hx711.scale == Hx711.DefaultScale && hx711.offset == 0
      ensures !IsConfigured()
    {
      nvs := DefaultNamespace;
      lastMedian, scale, tare := 0, 1.0, 0;
      emptyWeightGramms, fullWeightGramms := 0, 0;
      hx711 := new Hx711.Sensor();
      preferences := new Preferences(flash);
      new;
      hx711.Begin(dout, pdSck, 64);
      hx711.SetGain(128);
    }

    /**
     * `writeToNVS`: when the namespace opens, clear it, write exactly the four keys (scale
     * and tare as the sensor has them now) and answer true; otherwise touch nothing.
     */
    method WriteToNvs() returns (ok: bool)
      requires Valid()
      modifies preferences, preferences.flash
      ensures Valid()
      ensures ok == old(preferences.flash.available)
      ensures preferences.flash.available == old(preferences.flash.available)
      ensures preferences.flash.data ==
        if ok then old(preferences.flash.data)[nvs := Encode(SensorCal())] else old(preferences.flash.data)
    {
      ghost var data := preferences.flash.data;
      ok := preferences.Begin(nvs);
      if ok {
        var done := preferences.Clear();
        ghost var store: Namespace := map[];
        done := preferences.Put("scale", FloatVal(hx711.scale));
        Overwrite(data, nvs, store, store["scale" := FloatVal(hx711.scale)]);
        store := store["scale" := FloatVal(hx711.scale)];
        done := preferences.Put("tare", LongVal(hx711.offset));
        Overwrite(data, nvs, store, store["tare" := LongVal(hx711.offset)]);
        store := store["tare" := LongVal(hx711.offset)];
        done := preferences.Put("emptyWeight", UIntVal(emptyWeightGramms));
        Overwrite(data, nvs, store, store["emptyWeight" := UIntVal(emptyWeightGramms)]);
        store := store["emptyWeight" := UIntVal(emptyWeightGramms)];
        done := preferences.Put("fullWeight", UIntVal(fullWeightGramms));
        Overwrite(data, nvs, store, store["fullWeight" := UIntVal(fullWeightGramms)]);
        store := store["fullWeight" := UIntVal(fullWeightGramms)];
        assert preferences.flash.data == data[nvs := store];
        preferences.End();
        assert store == Encode(SensorCal());
      }
    }

    /**
     * `begin(nvs)`: adopt the namespace; when it opens, load the calibration (defaults
     * for missing keys) and hand scale and tare to the sensor; when it does not, change
     * nothing else.
     */
    method Begin(name: string)
      requires Valid()
      modifies this, hx711, preferences
      ensures Valid()
      ensures nvs == name && lastMedian == old(lastMedian)
      ensures hx711.Hw() == old(hx711.Hw())
      ensures old(preferences.flash.available) ==>
        Cal() == Decode(preferences.flash.Contents(name)) && hx711.scale == scale && hx711.offset == tare
      ensures !old(preferences.flash.available) ==>
        Cal() == old(Cal()) && hx711.scale == old(hx711.scale) && hx711.offset == old(hx711.offset)
    {
      nvs := name;
      var loaded := preferences.Begin(nvs);
      if loaded {
        var stored := preferences.Visible();
        scale := GetFloat(stored, "scale", Hx711.DefaultScale);
        tare := GetLong(stored, "tare", 0);
        emptyWeightGramms := GetUInt(stored, "emptyWeight", DefaultEmptyWeight);
        fullWeightGramms := GetUInt(stored, "fullWeight", DefaultFullWeight);
        hx711.SetScale(scale);
        hx711.SetOffset(tare);
        preferences.End();
      }
    }

    /**
     * `getSensorMedianValue(cached)`: the cached reading, or a fresh one that becomes the
     * cached reading, or -1 (leaving the cached reading alone) when the sensor is not ready.
     */
    method GetSensorMedianValue(cached: bool) returns (v: int32)
      modifies this`lastMedian
      ensures cached ==> v == old(lastMedian) && lastMedian == old(lastMedian)
      ensures !cached && !hx711.ready ==> v == SensorError && lastMedian == old(lastMedian)
      ensures !cached && hx711.ready ==> v == lastMedian == FloatToInt32(hx711.units)
    {
      if cached {
        return lastMedian;
      }
      if hx711.WaitReadyRetry(ReadyRetries, ReadyDelayMs) {
        lastMedian := FloatToInt32(hx711.GetUnits(Samples));
        v := lastMedian;
      } else {
        v := SensorError;
      }
    }

    /** `getCalculatedPercentage(true)`: the level of the cached reading, without a sensor read. */
    function CachedLevel(): (pct: int)
      reads this
      requires emptyWeightGramms != fullWeightGramms
      ensures 0 <= pct <= 100
    {
      Percentage(lastMedian, emptyWeightGramms, fullWeightGramms)
    }

    /** `getCalculatedPercentage(cached)`: the level of the cached or of a fresh reading. */
    method GetCalculatedPercentage(cached: bool) returns (pct: int)
      requires emptyWeightGramms != fullWeightGramms
      modifies this`lastMedian
      ensures 0 <= pct <= 100
      ensures cached ==> lastMedian == old(lastMedian) && pct == CachedLevel()
      ensures !cached ==> lastMedian == MedianAfterRead(old(Snap())) &&
                          pct == Percentage(ReadValue(old(Snap())), emptyWeightGramms, fullWeightGramms)
    {
      var val: int32;
      if cached {
        val := lastMedian;
      } else {
        val := GetSensorMedianValue(false);
      }
      pct := Percentage(val, emptyWeightGramms, fullWeightGramms);
    }

    /**
     * `emptyScale`: reset the sensor's scale factor and tare it. The cached calibration and
     * the store are not touched, so `isConfigured()` keeps its value until the next `begin`.
     */
    method EmptyScale()
      modifies hx711`scale, hx711`offset
      ensures hx711.scale == Hx711.DefaultScale && hx711.offset == old(hx711.average)
      ensures Cal() == old(Cal()) && IsConfigured() == old(IsConfigured())
    {
      hx711.SetScale(Hx711.DefaultScale);
      hx711.Tare();
    }

    /**
     * `applyCalibrateWeight(weight)` (declared as `setupWeight` in the header): the sensor's
     * scale becomes `get_units(10) / weight`, then the calibration is persisted; the answer
     * is that of `writeToNVS`. The cached calibration is not touched.
     */
    method ApplyCalibrateWeight(weight: int32) returns (ok: bool)
      requires weight != 0
      requires Valid()
      modifies hx711`scale, preferences, preferences.flash
      ensures Valid()
      ensures hx711.scale == old(hx711.units) / weight as real
      ensures Cal() == old(Cal()) && IsConfigured() == old(IsConfigured())
      ensures ok == old(preferences.flash.available)
      ensures preferences.flash.available == old(preferences.flash.available)
      ensures preferences.flash.data ==
        if ok then old(preferences.flash.data)[nvs := Encode(SensorCal())] else old(preferences.flash.data)
    {
      hx711.SetScale(hx711.GetUnits(Samples) / weight as real);
      ok := WriteToNvs();
    }

    /**
     * `setBottleWeight(empty, full)`: both weights change in memory whatever happens to the
     * write; no relation between them is checked; the answer is that of `writeToNVS`.
     */
    method SetBottleWeight(newEmpty: uint32, newFull: uint32) returns (ok: bool)
      requires Valid()
      modifies this`emptyWeightGramms, this`fullWeightGramms, preferences, preferences.flash
      ensures Valid()
      ensures emptyWeightGramms == newEmpty && fullWeightGramms == newFull
      ensures ok == old(preferences.flash.available)
      ensures preferences.flash.available == old(preferences.flash.available)
      ensures preferences.flash.data ==
        if ok then old(preferences.flash.data)[nvs := Encode(SensorCal())] else old(preferences.flash.data)
    {
      emptyWeightGramms := newEmpty;
      fullWeightGramms := newFull;
      ok := WriteToNvs();
    }

    /** `getBottleEmptyWeight()`: the weight as `int`, wrapping above 2^31 - 1. */
    function BottleEmptyWeight(): (w: int32)
      reads this
      ensures ToUint32(w) == emptyWeightGramms
      ensures emptyWeightGramms <= INT32_MAX ==> w == emptyWeightGramms
    {
      ToInt32(emptyWeightGramms)
    }

    /** `getBottleFullWeight()`: the weight as `int`, wrapping above 2^31 - 1. */
    function BottleFullWeight(): (w: int32)
      reads this
      ensures ToUint32(w) == fullWeightGramms
      ensures fullWeightGramms <= INT32_MAX ==> w == fullWeightGramms
    {
      ToInt32(fullWeightGramms)
    }
  }

  /**
   * The calibration ritual on a fresh store: begin, zero the scale, put 5000 g on it while
   * `get_units(10)` reads 50000, and apply. The running manager is still unconfigured; a
   * manager begun afterwards on the same namespace loads scale 10.0 and the tare taken.
   */
  method CalibrationScenario(average: int32) returns (configuredBeforeReboot: bool, recovered: Calibration)
    ensures !configuredBeforeReboot
    ensures recovered == Calibration(10.0, average, DefaultEmptyWeight, DefaultFullWeight)
    ensures Configured(recovered) <==> average != 0
  {
    var flash := new Flash(true);
    var m := new Manager(32, 27, flash);
    m.Begin("gas-scales0");
    DecodeEmpty();
    assert m.Cal() == Defaults;
    m.hx711.Present(true, 50000.0, average);
    m.EmptyScale();
    var ok := m.ApplyCalibrateWeight(5000);
    assert m.hx711.scale == 10.0 && m.hx711.offset == average;
    var written := m.SensorCal();
    assert written == Calibration(10.0, average, DefaultEmptyWeight, DefaultFullWeight);
    assert flash.Contents("gas-scales0") == Encode(written);
    configuredBeforeReboot := m.IsConfigured();
    var rebooted := new Manager(32, 27, flash);
    rebooted.Begin("gas-scales0");
    DecodeEncode(written);
    recovered := rebooted.Cal();
  }
}
