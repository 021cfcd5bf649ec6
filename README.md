# Gas scale firmware: a Dafny model

This project models the ESP32 firmware of the womolin/RV gas-bottle scale. Up to
`LEVELMANAGERS` (two) HX711 load-cell amplifiers each weigh one gas bottle. The firmware:

- turns each reading into a fill level in percent;
- sends the levels to a DAC, over BLE and to MQTT, and as a `status` event to the web UI;
- stores each scale's calibration in its own namespace of the ESP32 NVS flash;
- configures itself through a small HTTP API.

The model covers these parts of the firmware:

- **The scale manager** (`SCALEMANAGER`): the calibration it caches and persists, and the
  fill-level arithmetic with C's unsigned 32-bit wrap, float division, truncating cast and
  clamp. Also the two-step calibration: zero the scale, then scale it against a known weight.
- **The shared globals**: the `Timing` stamps, the registry of managers and their pins, the
  feature flags, the host name, the global preferences handle, and `getMacFromBT`.
- **`setup()`, `loop()` and `sleepOrDelay()` of `main.cpp`**, and the older `setup()`,
  `loop()` and `runtime()` of `scale.cpp`. The two `setup()`s are one operation, with the
  defaults in which they differ as a parameter.
- **The validation and dispatch of the HTTP handlers of `api-routes.h`**: the `scale`
  parameter, the calibration routes, the read-only routes, and the configuration POST.

Modules:

| module | models |
|---|---|
| `Machine` | The toolchain's integer semantics. `int` and `long` are 32 bits. Unsigned types wrap. A float-to-int cast truncates. `String::toInt()` is newlib's `atol`. `String(n)` gives decimal text. |
| `Nvs` | The Arduino `Preferences` library over the NVS partition. A handle must be open (`begin`) for a put to succeed or a get to see stored data. A get of a missing or differently typed key returns the caller's default. |
| `Hx711` | The driver object. It keeps the scale factor and offset the firmware sets. Three oracle fields stand for the hardware's answers: readiness, `get_units(10)`, and the raw average `tare()` adopts. |
| `ScaleManager` | `scalemanager.h/.cpp`: the pure fill-level functions and the `Manager` class. |
| `Global` | `global.h`: the `Globals` class and `getMacFromBT`. |
| `Firmware` | What both entry files share: wake-up handling, `initWifiAndServices`, `softReset`, the button and service blocks, `sleepOrDelay`, and `setup()`. |
| `MainLoop` | `loop()` of `main.cpp`. |
| `LegacyLoop` | `runtime()` and `loop()` of `scale.cpp`. |
| `ApiRoutes` | The handlers of `api-routes.h`. |

Actions on the outside world (Wi-Fi, mDNS, MQTT, BLE, DAC, deep sleep, delays) are values of
`Global.Effect`. Each operation returns the sequence of effects it takes, in order.

Inputs are parameters:

- the wake-up cause;
- whether LittleFS mounts;
- the eFuse MAC;
- the clock reading `now`;
- Wi-Fi and MQTT connection state;
- the decoded HTTP request.

## Model

| member | source | states |
|---|---|---|
| Machine.ToUint8 | src/api-routes.h:85 | Truncation to `uint8_t` gives the residue mod 256 and keeps values already in range. |
| Machine.ToUint32 | src/scalemanager.cpp:104-105 | Conversion to `uint32_t` is the residue mod 2^32: identity in range, +2^32 for a negative `int`. |
| Machine.Sub64 | src/main.cpp:257 | `uint64_t` subtraction is exact when no borrow occurs and wraps by 2^64 below zero. |
| Machine.ToInt32 | src/scalemanager.cpp:137-138 | `(int)` of a `uint32_t` keeps values up to 2^31-1 and wraps larger ones, and converting back gives the original. |
| Machine.Trunc | src/scalemanager.cpp:106 | A float-to-int cast rounds toward zero: the result is within one of `x`, on the side of zero. |
| Machine.FloatToInt32 | src/scalemanager.cpp:91 | The cast equals the truncation whenever that truncation fits an `int`, and is non-negative for a non-negative float. |
| Machine.DecimalString | src/main.cpp:167 | `String(n)` is a non-empty run of decimal digits with no leading zero. |
| Machine.Atol | src/api-routes.h:85 | `toInt()` of text with no digit is 0. |
| Machine.AtolOfDecimal | src/api-routes.h:85 | `toInt()` reads `String(n)` back as `n` for every `n` that fits a `long`. |
| Machine.AtolOfNegativeDecimal | src/api-routes.h:85 | `toInt()` reads "-" followed by `String(n)` as `-n`, for every `n` down to the smallest `long`. |
| Machine.DecimalStringInjective | src/main.cpp:167 | Distinct numbers render as distinct decimal strings. |
| Nvs.Lookup | src/scalemanager.cpp:75-79 | A typed get returns the stored value when it has the requested type, and otherwise the default. The result always has the requested type. |
| ScaleManager.Configured | src/scalemanager.cpp:65-68 | `isConfigured()` on a calibration: the scale factor differs from the driver default 1 and the tare differs from 0. |
| ScaleManager.Encode | src/scalemanager.cpp:50-58 | `writeToNVS` leaves exactly the keys `scale`, `tare`, `emptyWeight` and `fullWeight` in the namespace. |
| ScaleManager.Decode | src/scalemanager.cpp:75-79 | What `begin` loads: `scale` as a float (default 1), `tare` as a long (default 0), `emptyWeight` and `fullWeight` as unsigned ints (defaults 5500 and 16500), each read with its typed getter. |
| ScaleManager.DecodeEncode | src/scalemanager.cpp:50-85 | A calibration written by `writeToNVS` is loaded back by `begin` unchanged. |
| ScaleManager.DecodeEmpty | src/scalemanager.cpp:75-79 | An empty namespace loads scale 1.0, tare 0, 5500 g and 16500 g, which is not a configured scale. |
| ScaleManager.ConfiguredAfterLoad | src/scalemanager.cpp:65-79 | After `begin`, `isConfigured()` holds exactly when the namespace has a float `scale` other than 1 and a long `tare` other than 0 (both directions). |
| ScaleManager.GasWeight | src/scalemanager.cpp:104 | The gas weight is reading minus empty weight, or 0 when the reading is not above it. A negative reading is compared and subtracted as `reading + 2^32`. |
| ScaleManager.Span | src/scalemanager.cpp:105 | The span is `full - empty` mod 2^32. It is zero exactly when the two weights are equal. |
| ScaleManager.Level | src/scalemanager.cpp:106-110 | The clamped level is always in [0, 100]. |
| ScaleManager.Percentage | src/scalemanager.cpp:99-111 | `getCalculatedPercentage` for a given reading is always in [0, 100]. |
| ScaleManager.TruncatedRatio | src/scalemanager.cpp:106 | Truncating `g / s * 100` equals integer division `g * 100 / s`. |
| ScaleManager.LevelExact | src/scalemanager.cpp:106-110 | The level is 100 once the gas weight reaches the span, and otherwise `g * 100 / s` rounded down. |
| ScaleManager.PercentageOfWeights | src/scalemanager.cpp:104-110 | For every reading and every pair of distinct weights, the percentage in integer terms of the wrapped gas weight and span. |
| ScaleManager.PercentageInRange | src/scalemanager.cpp:99-111 | With `empty < full` and a non-negative reading: 0 up to the empty weight, 100 from the full weight on, and the truncated share of the span in between. |
| ScaleManager.DefaultBottleLevels | src/scalemanager.cpp:78-79 | With the default 5500 g / 16500 g bottle, 11000 g reads 50%, 5500 g reads 0% and 20000 g reads 100%. |
| ScaleManager.NegativeReadingIsFull | src/scalemanager.cpp:104 | A negative reading, such as the sensor error -1, reads as a full bottle because of the unsigned comparison. |
| ScaleManager.LevelMonotonic | src/scalemanager.cpp:106-110 | A larger gas weight never gives a lower level. |
| ScaleManager.PercentageMonotonic | src/scalemanager.cpp:99-111 | A heavier bottle never reads a lower percentage (non-negative readings, `full > empty`). |
| ScaleManager.ReadValue | src/scalemanager.cpp:89-96 | An uncached read returns `get_units(10)` cast to `int` when the sensor answers, and -1 otherwise. |
| ScaleManager.MedianAfterRead | src/scalemanager.cpp:89-96 | After an uncached read, `lastMedian` is the fresh value when the sensor answered and keeps its old value otherwise. |
| ScaleManager.MediansAfterRead | src/scalemanager.cpp:87-97 | After one fresh read of every scale, each cached reading is the new value if the sensor answered, and the old one otherwise. |
| ScaleManager.Manager.constructor | src/scalemanager.cpp:38-41 | Construction begins the driver on the given pins, ends at gain 128, and starts with namespace "gas-scale", reading 0, scale 1 and tare 0. The new manager is not configured. |
| ScaleManager.Manager.WriteToNvs | src/scalemanager.cpp:50-63 | When the namespace opens, it is replaced by exactly the sensor's scale and offset and the two bottle weights, and the answer is true. Otherwise the flash is untouched and the answer is false. The handle is closed again. |
| ScaleManager.Manager.Begin | src/scalemanager.cpp:70-85 | The namespace is adopted in every case. When it opens, the stored calibration (defaults for missing keys) becomes the cached one and the sensor's scale and offset. When it does not, the calibration and the sensor are unchanged. |
| ScaleManager.Manager.GetSensorMedianValue | src/scalemanager.cpp:87-97 | Cached: the last reading. Fresh and ready: the truncated `get_units(10)`, which also becomes the cached reading. Not ready: -1, with the cached reading kept. |
| ScaleManager.Manager.IsConfigured | src/scalemanager.cpp:65-68 | `isConfigured()` is `Configured` of the manager's cached scale and tare. |
| ScaleManager.Manager.CachedLevel | src/scalemanager.cpp:99-111 | The cached-reading level is in [0, 100]. |
| ScaleManager.Manager.GetCalculatedPercentage | src/scalemanager.cpp:99-111 | The level of the cached reading, or of a fresh one (the -1 error included), which also updates the cache as a fresh read does. The result is in [0, 100]. |
| ScaleManager.Manager.EmptyScale | src/scalemanager.cpp:113-118 | The sensor's scale factor is reset to 1 and its offset becomes the current raw average. The cached calibration and `isConfigured()` are unchanged. |
| ScaleManager.Manager.ApplyCalibrateWeight | src/scalemanager.cpp:120-123 | The sensor's scale becomes `get_units(10) / weight`, then everything is persisted as `writeToNVS` does and its answer returned. The cached calibration is unchanged. |
| ScaleManager.Manager.SetBottleWeight | src/scalemanager.cpp:125-135 | Both weights change in memory whatever happens. The calibration is persisted exactly when the namespace opens, and the answer says whether it was. |
| ScaleManager.Manager.BottleEmptyWeight | src/scalemanager.cpp:137 | The `int` returned converts back to the stored weight, and equals it below 2^31. |
| ScaleManager.Manager.BottleFullWeight | src/scalemanager.cpp:138 | The `int` returned converts back to the stored weight, and equals it below 2^31. |
| ScaleManager.CalibrationScenario | src/scalemanager.cpp:113-123 | The calibration ritual (empty, then 5000 g read as 50000) leaves the running manager unconfigured. A manager begun afterwards loads scale 10 and the tare taken, and is configured exactly when that tare is not 0. |
| Global.Due | src/main.cpp:257 | A periodic block is due exactly when `now - last` exceeds its interval, strictly, with unsigned 64-bit wrap when the clock is behind the stamp. |
| Global.Globals.constructor | src/global.h:23-59 | Static initialisation: all `Timing` stamps 0, button not pressed, all four `enable*` flags off (`enableMqtt` is initialised false in `src/MQTTclient.cpp`; the other three are only declared `extern` in the files of this model, so the model assumes false, and `setup()` assigns all four before anything reads them, at `src/main.cpp:176-179` and `src/scale.cpp:175-178`), and `LEVELMANAGERS` distinct managers on the `GPIOSETTINGS` pins in slot order, none configured, sharing one flash. |
| Global.Hex2 | src/global.h:82 | `%02X` of a byte is two characters. |
| Global.Hex2Digits | src/global.h:82 | Both characters of `%02X` are upper-case hex digits from "0123456789ABCDEF". |
| Global.Hex2Value | src/global.h:82 | The two hex digits of `%02X` read back as the byte. |
| Global.MacFromBT | src/global.h:76-87 | The loop's output is the six bytes in order, as two hex digits each, with the spacer between groups but not after the last. |
| Global.JoinLength | src/global.h:80-85 | `n` bytes render as `n` two-digit groups and `n - 1` spacers. |
| Global.MacLength | src/global.h:76-87 | A MAC address renders as `12 + 5 * |spacer|` characters, 12 with the default empty spacer. |
| Global.ParseJoin | src/global.h:80-85 | Reading the groups back from the rendering gives the bytes again, whatever the spacer: the format loses nothing. |
| Firmware.SleepOrDelay | src/main.cpp:68-84 | Deep sleep for 10 s exactly when Wi-Fi, BLE and MQTT are all off, and otherwise a 50 ms delay. |
| Firmware.HandleWakeup | src/main.cpp:86-108 | A wake-up by the button pin (EXT0) sets the pressed flag. A timer wake-up adds a 2 s delay. |
| Firmware.InitServices | src/main.cpp:110-138 | The Wi-Fi manager and web server always start, with the stored soft-AP fallback. mDNS starts exactly when Wi-Fi is on, and MQTT is prepared, as the last effect, exactly when MQTT is on. |
| Firmware.ClosedHandleUsesDefaults | src/main.cpp:128-135 | On a closed handle the services start with the built-in broker defaults ("localhost", 1883, "verges/gaslevel") and the soft-AP fallback on. |
| Firmware.SoftResetEffects | src/scale.cpp:197-206 | The soft reset always ends in the restart-by-sleep. The services are stopped exactly when Wi-Fi is on. |
| Firmware.ButtonEffects | src/main.cpp:245-255 | No press does nothing. A press with Wi-Fi on runs the soft AP. A press with Wi-Fi off starts the services and runs no soft AP. |
| Firmware.HandleButton | src/main.cpp:245-255 | The flag is cleared and the button block's effects are taken from the flag as it was. |
| Firmware.ServiceEffects | src/main.cpp:257-263 | MQTT is connected exactly when the check is due, Wi-Fi is on, connected and in station mode, and MQTT is on but not connected. |
| Firmware.ServiceCheck | src/main.cpp:257-263 | The stamp becomes `now` exactly when the check is due, and the block's effects follow. |
| Firmware.ManagerNamespace | src/main.cpp:167 | A manager's namespace is "gas-scale" followed by more characters. |
| Firmware.NamespacesDistinct | src/main.cpp:166-168 | No manager's namespace is the global one, and two managers share a namespace only when they are the same slot. |
| Firmware.HostNameOf | src/main.cpp:171-175 | The host name in use is the stored one when it is non-empty, and otherwise the non-empty default. |
| Firmware.HostNamePersisted | src/main.cpp:171-175 | After the write-back, the stored host name reads back as the one in use. |
| Firmware.FreshDeviceMain | src/main.cpp:170-191 | With nothing stored, `main.cpp` comes up as "gaslevel" with only Wi-Fi on. It starts the web services, mDNS and OTA, and stores the host name and the eFuse-derived OTA password. |
| Firmware.FreshDeviceLegacy | src/scale.cpp:169-186 | With nothing stored, `scale.cpp` comes up as "gas-scale" with Wi-Fi, BLE and DAC on. It starts the web services, mDNS and BLE, and stores only the host name. |
| Firmware.BeginManagers | src/main.cpp:166-168 | Every manager has been begun on its own namespace, each with the outcome `begin` promises. |
| Firmware.WriteBackKeepsFlags | src/main.cpp:171-179 | Writing the default host name back does not change how the four flags read. |
| Firmware.WriteBackKeepsServices | src/main.cpp:171-181 | Writing the default host name back does not change the soft-AP flag or the broker settings the services read. |
| Firmware.WriteBacksKeepSettings | src/main.cpp:171-191 | The host name write-back changes none of the flags, the service settings or the OTA password read after it. |
| Firmware.LoadHostName | src/main.cpp:171-175 | The host name is the stored one or the default. The default is written back exactly when none was stored and the handle is open. |
| Firmware.LoadFlags | src/main.cpp:176-179 | Each of the four flags is its stored value or its default. |
| Firmware.SetupOta | src/main.cpp:187-195 | OTA uses the stored password, or otherwise the decimal low 32 bits of the eFuse MAC, which is then stored when the handle is open. |
| Firmware.LoadNameAndFlags | src/main.cpp:171-179 | The host name and the flags as loaded, and the store and handle view after the host name write-back. |
| Firmware.LoadSettings | src/main.cpp:171-220 | The host name and the flags as loaded from the store as it was on entry. The services, BLE and OTA start as they direct, and the store is left with the write-backs. |
| Firmware.ForceWifi | src/main.cpp:224-229 | Wi-Fi ends up on exactly when it was on or some manager is not configured. |
| Firmware.OpenAll | src/main.cpp:160-168 | The global handle is open exactly when the flash is available. A failed open's `clear()` changes nothing, and every manager is begun on its own namespace. |
| Firmware.LoadAndClose | src/main.cpp:171-229 | Settings are loaded and the services started, and the global handle is closed. Wi-Fi is forced on by an unconfigured manager, and the store holds only the write-backs. |
| Firmware.Boot | src/main.cpp:160-229 | `setup()` on a mounted file system: flags, host name, effects and stored data as a function of the flash on entry. Every manager is begun, and the global handle is closed at the end. |
| Firmware.MountOrSleep | src/main.cpp:154-229 | When LittleFS fails: a 5 s deep sleep, with nothing else changed. Otherwise `Boot`. |
| Firmware.Setup | src/main.cpp:140-230 | All of `setup()`: the wake-up handling followed by either the 5 s sleep or the boot. The pressed flag records an EXT0 wake-up, and the loop's timestamps are untouched. |
| MainLoop.ReportedLevel | src/main.cpp:291-292 | The level a configured scale reports is in [0, 100]. |
| MainLoop.Outputs | src/main.cpp:291-313 | The visit of manager `i`: when configured, DAC channel `i+1` and BLE get the level from the cached reading, and with MQTT on and ready `level<i+1>` and `sensorValue<i+1>` are published. When unconfigured, DAC channel `i+1` and BLE get 0 and nothing is published. Each output only when its feature is on. |
| MainLoop.Row | src/main.cpp:283-293 | The status element of manager `i`: id `i`, the fresh reading as `sensorValue`, and the level only when configured. |
| MainLoop.Rows | src/main.cpp:282-290 | The status array has one element per manager. |
| MainLoop.RowsElements | src/main.cpp:282-290 | Element `k` of the status array is the row of manager `k`, with id `k`, its fresh reading and, when configured, its level. |
| MainLoop.PublishesOnlyConfigured | src/main.cpp:291-303 | Every MQTT publish of a sensor block comes from a configured scale (named by its 1-based number) while MQTT is on and the client answered ready at that scale's visit. It carries that scale's level or its fresh reading. |
| MainLoop.ConfiguredScalesPublish | src/main.cpp:298-300 | With MQTT on, every configured scale for which the client answers ready at its visit publishes its level and its fresh reading. |
| MainLoop.UnconfiguredDacZero | src/main.cpp:309 | With the DAC on, an unconfigured scale sets its DAC channel to 0. |
| MainLoop.UnconfiguredBleZero | src/main.cpp:310 | With BLE on, an unconfigured scale sets the BLE level to 0. |
| MainLoop.UnconfiguredOutputs | src/main.cpp:291-314 | An unconfigured scale sets its DAC channel and the BLE level to 0 and publishes nothing, whatever the MQTT state. |
| MainLoop.OutputsInRange | src/main.cpp:291-310 | Every DAC and BLE value is in [0, 100], and every DAC channel is a 1-based scale number. |
| MainLoop.SensorErrorKeepsLastLevel | src/main.cpp:283-292 | When the sensor does not answer, the reading sent is -1, while the level is still that of the last good reading. |
| MainLoop.Visit | src/main.cpp:283-314 | One visit takes one fresh reading, updates the cache as `getSensorMedianValue` does, and produces the outputs and status row of that manager. |
| MainLoop.VisitNext | src/main.cpp:282-315 | The next visit of a round extends the "first `i` managers read" state by one and produces that manager's outputs and row. |
| MainLoop.VisitAll | src/main.cpp:282-315 | Every manager is visited once in slot order, each with the readiness the client answers at its own visit. The effects and the rows are those of all managers' snapshots on entry, and every manager has taken one fresh reading. |
| MainLoop.SensorRound | src/main.cpp:282-315 | The round's effects use one readiness answer per manager visit. After the round, the cached readings are those after one fresh read of each scale, and no calibration or namespace has changed. |
| MainLoop.SensorBlock | src/main.cpp:266-320 | When due: the stamp becomes `now`, the round runs with one readiness answer per manager visit, and the status event carries the rows. When not due, nothing changes. |
| MainLoop.ButtonAndServices | src/main.cpp:245-263 | The button block followed by the service block, with the flag cleared. |
| MainLoop.Loop | src/main.cpp:244-322 | One `loop()`: the button, service and sensor effects (readiness asked once per manager visit), then `sleepOrDelay`'s. Both stamps and the cached readings change exactly as their blocks are due, and no calibration changes. |
| LegacyLoop.Runtime | src/scale.cpp:109-111 | `runtime()` is the RTC time in whole milliseconds, rounded down. |
| LegacyLoop.RuntimeMonotonic | src/scale.cpp:109-111 | A later RTC time never gives an earlier `runtime()`. |
| LegacyLoop.FreshLevel | src/scale.cpp:237 | The level of a fresh `getCalculatedPercentage()` is in [0, 100]. |
| LegacyLoop.Outputs | src/scale.cpp:235-261 | The visit of manager `i` as evidently intended (see Findings): when configured, DAC channel `i+1` and BLE get the fresh level, and with MQTT on and ready `bottle<i+1>` carries the level and `sensor<i+1>` the cached reading. When unconfigured, DAC channel `i+1` gets 0 and BLE gets the initial -1, and nothing is published. Each output only when its feature is on. |
| LegacyLoop.PublishesOnlyConfigured | src/scale.cpp:236-252 | Of the intended visit (see Findings): every publish comes from a configured scale while MQTT is on and the client answered ready at that scale's visit. It carries the fresh level on `bottle` or the cached reading on `sensor`. |
| LegacyLoop.ConfiguredScalesPublish | src/scale.cpp:241-246 | Of the intended visit (see Findings): with MQTT on, every configured scale for which the client answers ready at its visit publishes its level and its cached reading. |
| LegacyLoop.BottlePublishAsWritten | src/scale.cpp:241-246 | As written, a configured scale that finds MQTT ready ends its visit with a null-payload publish on `bottle<i+1>`: no publish of that visit carries the level or the reading, while the intended visit publishes the level on `bottle<i+1>`. |
| LegacyLoop.AsWrittenElsewhere | src/scale.cpp:235-261 | Without a configured scale, MQTT on and a ready client, the visit as written and the intended visit give the same outputs. |
| LegacyLoop.OutputsInRange | src/scale.cpp:234-261 | Every BLE value is a level in [0, 100] or the -1 of an unconfigured scale. Every DAC value is in [0, 100] on a 1-based channel. |
| LegacyLoop.UnconfiguredOutputs | src/scale.cpp:256-261 | An unconfigured scale sends -1 over BLE and publishes nothing. |
| LegacyLoop.SensorErrorReadsFull | src/scale.cpp:235-237 | When the sensor does not answer, the error code -1 makes a configured bottle with `full > empty` read 100%. |
| LegacyLoop.Visit | src/scale.cpp:235-261 | One visit takes one fresh reading and produces the outputs of `scale.cpp` for that manager. |
| LegacyLoop.VisitNext | src/scale.cpp:234-262 | The next visit of a round extends the "first `i` managers read" state by one and produces that manager's outputs. |
| LegacyLoop.VisitAll | src/scale.cpp:234-262 | Every manager is visited once in slot order, each with the readiness the client answers at its own visit, with the intended effects of all the snapshots on entry. |
| LegacyLoop.SensorRound | src/scale.cpp:234-262 | The round's effects use one readiness answer per manager visit. After the round, the cached readings are those after one fresh read each, and the calibrations are unchanged. |
| LegacyLoop.SensorBlock | src/scale.cpp:230-263 | When due, the stamp becomes `now` and the round runs with one readiness answer per manager visit. Otherwise nothing changes. |
| LegacyLoop.Loop | src/scale.cpp:208-265 | A pressed button runs the button block and the soft reset and nothing else. Otherwise the service and sensor blocks run as due, followed by `sleepOrDelay`. |
| LegacyLoop.ButtonEndsInReset | src/scale.cpp:209-219 | A pressed button always ends the iteration with the soft reset, which the button block itself never issues. |
| ApiRoutes.SelectScale | src/api-routes.h:84-86 | A missing or out-of-range `scale` parameter gets 400. A parameter is accepted exactly when `toInt()` truncated to 8 bits is a 1-based scale number, and then selects that slot. |
| ApiRoutes.SelectDecimal | src/api-routes.h:85-86 | A decimal parameter `n` selects slot `n mod 256 - 1` when that is a scale, and gets 400 otherwise. |
| ApiRoutes.SelectNegativeDecimal | src/api-routes.h:85-86 | A negative decimal parameter `v` selects slot `v mod 256 - 1` when that is a scale, and gets 400 otherwise. |
| ApiRoutes.SelectMinusOne | src/api-routes.h:85-86 | "-1" wraps to 255 and gets 400. |
| ApiRoutes.SelectNonNumeric | src/api-routes.h:85-86 | Text without digits parses as 0 and gets 400. |
| ApiRoutes.SetupEmpty | src/api-routes.h:81-91 | With a valid scale, that scale's driver gets the default scale and its offset becomes the current average, while its pins, gain and readings stay. The answer is 200. Otherwise 400. No other driver changes. |
| ApiRoutes.IsInt | src/api-routes.h:103 | `is<int>()`: the JSON value is an integer within the 32-bit `int` range. |
| ApiRoutes.SetupWeightStatus | src/api-routes.h:96-105 | 200 exactly for a valid scale and an `int` weight, and 400 exactly for a bad scale (422 otherwise). |
| ApiRoutes.SetupWeight | src/api-routes.h:93-106 | On 200 the selected driver's scale becomes its reading divided by the weight, and its offset, pins, gain and readings stay. What is written to that scale's namespace (when the flash opens) is the new scale with the unchanged offset and the bottle weights. No other driver or store handle changes. On an error no driver, handle or flash content changes. |
| ApiRoutes.RawValue | src/api-routes.h:141-153 | 400 for a bad scale, and otherwise the cached reading of the selected scale. |
| ApiRoutes.CachedLevelOf | src/api-routes.h:173 | The cached level is defined exactly when the weights differ, and then lies in [0, 100]. |
| ApiRoutes.LevelCurrent | src/api-routes.h:165-177 | 400 for a bad scale, and otherwise the cached level of the selected scale. |
| ApiRoutes.LevelKeysDistinct | src/api-routes.h:159 | The keys `level0`, `level1`, … of two scales are equal only for the same scale. |
| ApiRoutes.LevelCurrentAll | src/api-routes.h:155-163 | One entry per manager, in slot order, keyed `level<i>`, with its cached level. |
| ApiRoutes.NumLevels | src/api-routes.h:191-197 | The number reported is the number of managers. |
| ApiRoutes.ValidHostName | src/api-routes.h:39 | The only check on the host name: between 3 and 32 bytes of UTF-8, both inclusive. |
| ApiRoutes.Utf8Length | src/api-routes.h:39 | `String::length()` counts UTF-8 bytes: between one and four per character. |
| ApiRoutes.AsciiLength | src/api-routes.h:39 | An ASCII host name has as many bytes as characters. |
| ApiRoutes.SettingKeysDistinct | src/api-routes.h:44-69 | The ten keys the handler writes are pairwise different. |
| ApiRoutes.ConfigFlagsReadBack | src/api-routes.h:44-71 | After an accepted body, the host name and the four flags read back as sent. |
| ApiRoutes.GeneralReadsBack | src/api-routes.h:44-61 | The host name and flag puts read back as sent. |
| ApiRoutes.ConfigMqttReadsBack | src/api-routes.h:64-68 | After an accepted body, the broker port, host, topic, user and password read back as sent. |
| ApiRoutes.ConfigEffects | src/api-routes.h:50-76 | BLE is stopped exactly when it was on and started exactly when it is now on. MQTT is disconnected exactly when it was on and connected exactly when it is now on. |
| ApiRoutes.PutHostName | src/api-routes.h:44 | The host name is stored exactly when the handle is open. |
| ApiRoutes.PutEnableWifi | src/api-routes.h:47-49 | The flag is stored and switched exactly when the handle is open. |
| ApiRoutes.PutEnableBle | src/api-routes.h:50-55 | The flag is stored and switched exactly when the handle is open, and BLE is restarted to match. |
| ApiRoutes.PutEnableDac | src/api-routes.h:59-61 | The flag is stored and switched exactly when the handle is open. |
| ApiRoutes.PutMqttSettings | src/api-routes.h:64-68 | The five broker settings are stored, in order, exactly when the handle is open. |
| ApiRoutes.PutEnableMqtt | src/api-routes.h:69-76 | The flag is stored and switched exactly when the handle is open. The client is disconnected if it was on, and prepared and connected if it is now on. |
| ApiRoutes.StoreGeneral | src/api-routes.h:44-61 | The host name and the Wi-Fi, BLE, Wi-Fi and DAC puts, in order, with the flags and BLE switched when the handle is open. |
| ApiRoutes.StoreMqtt | src/api-routes.h:64-76 | The broker puts and the MQTT flag put, in order, with MQTT switched when the handle is open. |
| ApiRoutes.StoreConfig | src/api-routes.h:44-76 | With the handle open: the store gets every setting, the flags become the body's and the services switch. With it closed nothing changes. |
| ApiRoutes.ConfigPost | src/api-routes.h:32-79 | A host name outside 3..32 bytes gets 422 with nothing written. Otherwise 200, and the settings and flags change exactly when the global handle is open. The host name in use never changes. |

## Left out

- Serial logging, `printf` and the `LOG_INFO` macros: they produce no state the model keeps.
- The BMP085/BMP180 sensor, and the `airPressure`, `temperature`, `pressure`, `sealevelpressure` and `altitude` values published or sent from it: the values come from a driver that is not part of this model.
- The JSON documents of the status event and the HTTP answers are not built or serialised. The model keeps their contents: status rows, statuses and the entries of `/api/level/current/all`.
- The JSON decoding of request bodies (`deserializeJson`, `as<String>()`, `as<boolean>()`, `as<uint16_t>()`): bodies arrive already decoded. The `!hostname` test on a `String` is always false for a decoded value, so only the length check is modelled.
- These routes are not modelled: `/api/config` GET, `/api/reset`, `/api/esp/heap`, `/api/esp/cores`, `/api/esp/freq`, static files, the event-source connect handler and the not-found handler. They only report or restart and make no decision the model keeps.
- `/api/setup/empty` is registered twice with the same effect on the scale. Only the effect is modelled, not which registration answers.
- `/api/setup/weight` calls `setupWeight`, which `scalemanager.h` declares but `scalemanager.cpp` never defines. The definition that exists is `applyCalibrateWeight`, and the model uses it.
- `main.cpp` and `scale.cpp` both define `setup()` and `loop()`, so they cannot be linked into one image. Each is modelled on its own, sharing `Firmware`.
- `readingHistory` and `readingHistoryCount` in RTC memory are declared but never used, so they are not modelled.
- `LevelManager1` and `LevelManager2` are declared without constructor arguments, while the only constructor takes the two pins. `Global.Globals.constructor` builds them on the `GPIOSETTINGS` pins.
- The bottle weights are not initialised by the constructor. The model starts them at 0, the zero of static storage.
- The clock: the source reads `runtime()` again for each gate and stamp. The model takes one `now` per `loop()` iteration.
- `Mqtt.isReady()` is asked again at each manager's visit; the model takes the answers as a parameter, one per manager (`mqttReady[i]`), and does not model the client's connection.
- `Mqtt.prepare()` without arguments and `Mqtt.disconnect(true)` are effects. What the MQTT client does with them is not part of this model.
- The Wi-Fi manager, web server, mDNS, BLE server, DAC, ArduinoOTA callbacks, deep sleep and RTC sleep timing are effects; their inner workings are not part of this model.
- `Mdns(hostName)` stands for starting mDNS with its service announcements. `main.cpp` announces `http` and `ota` (src/main.cpp:123-124), while `scale.cpp` announces only `http`. The model does not tell the two apart.
- The HX711 driver: `wait_ready_retry` and `get_units(10)` are oracle fields of `Hx711.Sensor`, not a model of the bit-banged protocol or of the median.
- The Arduino `Preferences` library is modelled only as far as the firmware relies on it: typed keys, defaults, and failures on a closed handle. Flash wear and size limits are not modelled.
- On a device, `setup()` closes the global handle, so a later `/api/config` POST persists no setting and switches no flag. `ApiRoutes.ConfigPost` states this case; the source evidently expects the handle to be open.
- Machine.FloatToInt32: C leaves an out-of-range cast undefined; the model saturates at the bounds of `int`.
- ScaleManager.Percentage: floats are exact reals here, so the rounding of `float` (all integers above 2^24, and the quotient) is not modelled.
- ScaleManager.Percentage: requires distinct empty and full weights, because the firmware divides by a zero span, giving infinity or NaN before an undefined cast.
- ScaleManager.Level, ScaleManager.Manager.CachedLevel, ScaleManager.Manager.GetCalculatedPercentage, MainLoop.ReportedLevel and LegacyLoop.FreshLevel carry the same distinct-weights requirement.
- MainLoop.Loop, MainLoop.SensorBlock, MainLoop.SensorRound, MainLoop.VisitAll, LegacyLoop.Loop, LegacyLoop.SensorBlock, LegacyLoop.SensorRound and LegacyLoop.VisitAll require every configured scale to have distinct weights (`Globals.LevelsDefined`), for the same reason.
- MainLoop.Visit, MainLoop.VisitNext, LegacyLoop.Visit and LegacyLoop.VisitNext carry the same requirement on the managers they visit (a configured manager's weights differ, or the snapshots satisfy `SpansOk`).
- ScaleManager.Manager.ApplyCalibrateWeight: requires a non-zero weight. With weight 0 the firmware sets an infinite or NaN scale factor, and infinities are not modelled.
- ApiRoutes.SetupWeight: requires the weight not to be the integer 0 when the `scale` parameter is accepted, for the same reason. A request with a bad or missing `scale` is answered 400 whatever its weight.
- LegacyLoop.Outputs publishes the level on `bottle<i+1>` as evidently intended, not the null-payload publish of scale.cpp:242 (see Findings); `LegacyLoop.OutputsAsWritten` models the call as written.
- LegacyLoop.Visit, LegacyLoop.VisitNext, LegacyLoop.VisitAll, LegacyLoop.SensorRound, LegacyLoop.SensorBlock and LegacyLoop.Loop are proved against the intended `LegacyLoop.Outputs`, so they promise a level-carrying bottle publish the source as written does not send (see Findings).
- LegacyLoop.PublishesOnlyConfigured and LegacyLoop.ConfiguredScalesPublish are about the intended `LegacyLoop.Outputs`; for the visit as written see `LegacyLoop.BottlePublishAsWritten`.
- LegacyLoop.OutputsAsWritten stops the visit at the faulting publish; the reset that follows the load fault on the chip is not modelled.

## Findings

| source | as written | input that shows it | evidently intended | confidence | as-written member | corrected member |
|---|---|---|---|---|---|---|
| src/scale.cpp:242 | The bottle publish passes 0, `true` and the level text. This selects the MQTT client's overload taking a payload pointer, a length and a retained flag: the payload is null, the length 1, the retained flag the text pointer. The level is never sent, and reading the payload byte from address 0 faults on the ESP32. | A configured scale with distinct weights, MQTT on and the client ready. | The level text published retained on `bottle<i+1>`, as the three-argument calls at src/scale.cpp:246 and src/main.cpp:299-300 do. | not executed; medium (the MQTT client's header is not part of this model) | LegacyLoop.BottlePublishAsWritten | LegacyLoop.ConfiguredScalesPublish |
