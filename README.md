# Water-flow meter (ESP32 firmware) — Dafny model

The firmware counts the pulses of a hall-effect flow sensor in an interrupt
handler. Once a second a FreeRTOS task drains that counter and turns the
count into a flow rate in litres per minute (pulses / 7.5). It adds the
second's volume (rate / 60) to a running total, keeps a "flowing" flag, lights
an LED while water flows and publishes telemetry over MQTT. The telemetry is
edge-triggered: one `0.0` reading when the flow stops, and the current rate on
every second of flow.

The model has three modules:

- `FlowModel` (`flow_model.dfy`) holds the pure arithmetic and one pass of the
  sampling loop as a function `Step` over a `Snapshot` of the globals
  (`contador_pulsos`, `litros_totais`, `esta_fluindo`), the LED level, whether
  an MQTT client exists, and the telemetry the client has accepted.
- `FlowTraces` (`flow_traces.dfy`) covers runs. A run is a sequence of
  interrupt edges and sampling passes. The module proves that no pulse is lost
  and that the total is exact: one 450th of a litre per pulse. It also proves
  that the state stays consistent, that telemetry is append-only, and that the
  stop reading is sent once.
- `FlowMeter` (`flow_meter.dfy`) is the firmware's imperative form: a class
  `Meter` whose fields are the globals. `Isr`, `Drain`, `Publish` and `Tick`
  update them in place. `Tick` is proved equal to `Step`, and `Operate` (a
  finite stretch of the endless task loop, with interrupts between passes) is
  proved equal to `Run`.

Idealisations:

- `float` arithmetic is exact `real` arithmetic. A flowing second adds exactly
  `pulses / 450` litres.
- The `uint32_t` counter wraps modulo 2^32 (`Incremented`). The no-loss
  theorems assume that no interrupt finds the counter at 2^32 - 1 (`NoWrap`).
- The transport's answer to `esp_mqtt_client_publish` (`msg_id`) is a
  parameter of each pass. It is one value per pass because at most one publish
  happens per pass.
- Client creation is the boolean `SetClient(handleNonNull)`.

The system's design description also describes a persisted, remotely
updatable configuration (calibration factor and sampling interval), status
heartbeats and telemetry emitted on every pass. The code has none of these.
Calibration is the compile-time constant `FATOR_CALIBRACAO`, the interval is a
fixed 1000 ms delay, and a pass with no flow publishes nothing unless it ends
a flow. This model follows the code.

## Model

| member | source | states |
|---|---|---|
| `FlowModel.Initial` | main/medidor_fluxo.c:22-24 | the globals start at counter 0, total 0.0, not flowing, LED low, nothing published; that state is consistent |
| `FlowModel.Incremented` | main/medidor_fluxo.c:29-31 | `++` on the `uint32_t` counter: the result is (c + 1) mod 2^32, so it is c + 1 below the maximum and 0 at it |
| `FlowModel.FlowRate` | main/medidor_fluxo.c:71 | rate × 7.5 equals the pulse count; the rate is never negative and is positive exactly when pulses > 0 |
| `FlowModel.PublishPlan` | main/medidor_fluxo.c:83-97 | a pass calls publish at most once; it calls it exactly when the meter was or is flowing; the rate while flowing, 0.0 on the flowing→stopped edge |
| `FlowModel.Accepted` | main/medidor_fluxo.c:49-60 | without a client, or when the publish returns a negative id, nothing is sent; otherwise each planned rate is sent with the current total |
| `FlowModel.Step` | main/medidor_fluxo.c:66-97 | one pass leaves the counter at 0; flowing iff drained pulses > 0; LED = 1 iff flowing; total grows by exactly pulses/450 (unchanged at 0 pulses, never lower); telemetry only appended, at most one message; the rate and new total while flowing, 0.0 and the total on the stop edge, nothing when stopped→stopped, nothing without a client or on failure; consistency preserved |
| `FlowTraces.NoLossDrain` | main/medidor_fluxo.c:66-69 | over any run without wrap-around, the pulses drained plus the pulses left in the counter equal the initial count plus the number of interrupts: none lost, none counted twice |
| `FlowTraces.VolumeOfRun` | main/medidor_fluxo.c:71-77 | over any run, the total grows by exactly the drained pulses / 450 and never decreases |
| `FlowTraces.MeterAccuracy` | main/medidor_fluxo.c:66-77 | over any run without wrap-around, the total grows by (initial count + interrupts − count left) / 450 |
| `FlowTraces.AccuracyFromPowerUp` | main/medidor_fluxo.c:63-77 | from power-up, after the last interrupt is followed by a pass, the total equals interrupts / 450 litres |
| `FlowTraces.RunConsistent` | main/medidor_fluxo.c:76-81 | in every state reachable from a consistent one, the LED level equals the flowing flag and the total is non-negative |
| `FlowTraces.RunSent` | main/medidor_fluxo.c:84-97 | over any run, earlier telemetry is kept as a prefix, at most one message is added per pass, and nothing is sent without a client |
| `FlowTraces.QuietAfterStop` | main/medidor_fluxo.c:88-97 | with no further pulses, a flowing meter sends a single 0.0 reading (if that publish succeeds) and then stays silent; a stopped meter sends nothing |
| `FlowTraces.TenLitresPerMinute` | main/medidor_fluxo.c:71-77 | 75 pulses in one second mean 10 L/min and 1/6 litre, published as (10.0, total + 1/6) |
| `FlowMeter.Meter.constructor` | main/medidor_fluxo.c:22-26 | the object starts in `Initial`, with no MQTT client |
| `FlowMeter.Meter.SetClient` | main/medidor_fluxo.c:129 | the client is present exactly when the handle returned is non-NULL |
| `FlowMeter.Meter.Isr` | main/medidor_fluxo.c:29-31 | the interrupt handler changes only the counter, by `Incremented` |
| `FlowMeter.Meter.Drain` | main/medidor_fluxo.c:66-69 | the drain returns the counter's earlier value, leaves it at 0 and changes nothing else |
| `FlowMeter.Meter.Publish` | main/medidor_fluxo.c:49-60 | only the outbox changes; the (rate, total) message is added only with a client and a non-negative msg_id; a failed publish changes nothing |
| `FlowMeter.Meter.Tick` | main/medidor_fluxo.c:64-97 | one in-place pass of the task loop leaves the state `Step` gives |
| `FlowMeter.Meter.Operate` | main/medidor_fluxo.c:62-101 | executing any schedule of interrupts and passes leaves the state `Run` gives |

## Left out

- `app_main` bring-up (NVS, netif, event loop, Wi-Fi, GPIO configuration, ISR registration, MQTT client start): hardware and network I/O. Only the stored client handle (`SetClient`) and the initial LED level are kept.
- The MQTT event handler: it only logs.
- All `ESP_LOGI`/`ESP_LOGW` logging, including the warning on a failed publish: output only.
- JSON payload formatting with `%.2f` and the topic string: a message is the pair (rate, total) as exact reals.
- Float rounding of the rate and the total: reals are exact, so long uptimes show none of float's drift.
- Interrupt enable/disable and true concurrency: the drain is one atomic step and interrupts interleave only between passes.
- `vTaskDelay(1000 ms)` timing: each pass is taken to cover one second, which the `/ 60` conversion assumes.
- The endless `while (1)`: `Operate` runs a finite schedule, and properties of the unbounded loop are stated over every finite run.
- FlowTraces.NoLossDrain: exact only when no interrupt wraps the 32-bit counter (`NoWrap`). A wrap loses 2^32 pulses, as the C code would.
