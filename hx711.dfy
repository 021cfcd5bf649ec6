/**
 * The HX711 load-cell amplifier as the scale manager sees it. The driver is not part of
 * this model: the sensor keeps the scale factor and offset the firmware sets, and three
 * oracles stand for what the hardware would answer now: whether `wait_ready_retry`
 * succeeds, the value `get_units(10)` returns, and the raw average `tare()` adopts.
 */
module Hx711 {
  import opened Machine

  /** The scale factor of a freshly built driver and of `set_scale()` without argument. */
  const DefaultScale: real := 1.0

  /** What the hardware presents, and the pins and gain it was begun with. */
  datatype Hardware = Hardware(dout: uint8, pdSck: uint8, gain: uint8, ready: bool, units: real, average: int32)

  class Sensor {
    var dout: uint8
    var pdSck: uint8
    var gain: uint8
    var scale: real
    var offset: int32
    var ready: bool
    var units: real
    var average: int32

    constructor ()
      ensures scale == DefaultScale && offset == 0
      ensures dout == 0 && pdSck == 0 && gain == 0
    {
      dout, pdSck, gain := 0, 0, 0;
      scale, offset := DefaultScale, 0;
      ready, units, average := false, 0.0, 0;
    }

    function Hw(): Hardware
      reads this
    {
      Hardware(dout, pdSck, gain, ready, units, average)
    }

    /** The physical load on the cell changes: not firmware, the world the firmware observes. */
    method Present(ready: bool, units: real, average: int32)
      modifies this
      ensures this.ready == ready && this.units == units && this.average == average
      ensures dout == old(dout) && pdSck == old(pdSck) && gain == old(gain)
      ensures scale == old(scale) && offset == old(offset)
    {
      this.ready, this.units, this.average := ready, units, average;
    }

    /** `begin(dout, pd_sck, gain)`. */
    method Begin(dout: uint8, pdSck: uint8, gain: uint8)
      modifies this
      ensures this.dout == dout && this.pdSck == pdSck && this.gain == gain
      ensures scale == old(scale) && offset == old(offset)
      ensures ready == old(ready) && units == old(units) && average == old(average)
    {
      this.dout, this.pdSck, this.gain := dout, pdSck, gain;
    }

    /** `set_gain(gain)`. */
    method SetGain(gain: uint8)
      modifies this`gain
      ensures this.gain == gain
    {
      this.gain := gain;
    }

    /** `set_scale(s)`. */
    method SetScale(s: real)
      modifies this`scale
      ensures scale == s
    {
      scale := s;
    }

    /** `set_offset(o)`. */
    method SetOffset(o: int32)
      modifies this`offset
      ensures offset == o
    {
      offset := o;
    }

    /** `tare()`: the current raw average becomes the zero point. */
    method Tare()
      modifies this`offset
      ensures offset == average
    {
      offset := average;
    }

    /** `wait_ready_retry(retries, delayMs)`. */
    function WaitReadyRetry(retries: nat, delayMs: nat): bool
      reads this
    {
      ready
    }

    /** `get_units(times)`. */
    function GetUnits(times: nat): real
      reads this
    {
      units
    }
  }
}
