/**
 * The ESP32 "Preferences" key-value store over the NVS flash partition. The flash holds
 * one map per namespace; a `Preferences` object is a handle that is opened on one
 * namespace with `begin` and closed with `end`. As in the Arduino library, every write on
 * a handle that is not open fails and every read returns the caller's default; a read
 * of a missing key, or of a key stored with another type, also returns the default.
 */
module Nvs {
  import opened Machine

  /** A stored value, tagged with the type of the put call that wrote it. */
  datatype Value =
    | FloatVal(f: real)
    | LongVal(l: int32)
    | UIntVal(u: uint32)
    | BoolVal(b: bool)
    | StringVal(s: string)

  type Namespace = map<string, Value>

  /** Whether two values were written by the same kind of put call. */
  predicate SameKind(a: Value, b: Value) {
    match a
    case FloatVal(_) => b.FloatVal?
    case LongVal(_) => b.LongVal?
    case UIntVal(_) => b.UIntVal?
    case BoolVal(_) => b.BoolVal?
    case StringVal(_) => b.StringVal?
  }

  /** A typed get: the stored value when there is one of the requested kind, else the default. */
  function Lookup(ns: Namespace, key: string, default: Value): (v: Value)
    ensures SameKind(v, default)
    ensures key !in ns ==> v == default
    ensures key in ns && SameKind(ns[key], default) ==> v == ns[key]
  {
    if key in ns && SameKind(ns[key], default) then ns[key] else default
  }

  function GetFloat(ns: Namespace, key: string, default: real): real {
    Lookup(ns, key, FloatVal(default)).f
  }

  function GetLong(ns: Namespace, key: string, default: int32): int32 {
    Lookup(ns, key, LongVal(default)).l
  }

  function GetUInt(ns: Namespace, key: string, default: uint32): uint32 {
    Lookup(ns, key, UIntVal(default)).u
  }

  function GetBool(ns: Namespace, key: string, default: bool): bool {
    Lookup(ns, key, BoolVal(default)).b
  }

  function GetString(ns: Namespace, key: string, default: string): string {
    Lookup(ns, key, StringVal(default)).s
  }

  /** The NVS partition. `available` says whether `nvs_open` succeeds on it. */
  class Flash {
    var data: map<string, Namespace>
    var available: bool

    constructor (available: bool)
      ensures data == map[] && this.available == available
    {
      data := map[];
      this.available := available;
    }

    /** A namespace that was never written reads as empty. */
    function Contents(name: string): Namespace
      reads this
    {
      if name in data then data[name] else map[]
    }
  }

  /** A `Preferences` handle on the shared flash. */
  class Preferences {
    const flash: Flash
    var started: bool
    var ns: string

    constructor (flash: Flash)
      ensures this.flash == flash && !started
    {
      this.flash := flash;
      started := false;
      ns := "";
    }

    /** `begin(name, false)`: fails when the handle is already open or the flash cannot be opened. */
    method Begin(name: string) returns (ok: bool)
      modifies this
      ensures ok == (!old(started) && flash.available)
      ensures started == (old(started) || ok)
      ensures ns == if ok then name else old(ns)
    {
      ok := !started && flash.available;
      if ok {
        started := true;
        ns := name;
      }
    }

    /** `end()`. */
    method End()
      modifies this
      ensures !started && ns == old(ns)
    {
      started := false;
    }

    /** `clear()`: empties the open namespace. */
    method Clear() returns (ok: bool)
      modifies flash
      ensures ok == started && flash.available == old(flash.available)
      ensures flash.data == if ok then old(flash.data)[ns := map[]] else old(flash.data)
    {
      ok := started;
      if ok {
        flash.data := flash.data[ns := map[]];
      }
    }

    /** Any of the typed puts (`putFloat`, `putLong`, `putUInt`, `putBool`, `putString`). */
    method Put(key: string, v: Value) returns (ok: bool)
      modifies flash
      ensures ok == started && flash.available == old(flash.available)
      ensures flash.data == if ok then old(flash.data)[ns := old(flash.Contents(ns))[key := v]] else old(flash.data)
    {
      ok := started;
      if ok {
        flash.data := flash.data[ns := flash.Contents(ns)[key := v]];
      }
    }

    /** What a get on this handle sees: nothing while the handle is closed. */
    function Visible(): Namespace
      reads this, flash
    {
      if started then flash.Contents(ns) else map[]
    }
  }

  /** A namespace written twice holds the second value. */
  lemma Overwrite(data: map<string, Namespace>, key: string, first: Namespace, second: Namespace)
    ensures data[key := first][key := second] == data[key := second]
  {
  }
}
