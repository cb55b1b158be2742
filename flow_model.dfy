/** Pure model of the water-flow meter's arithmetic and of one pass of its
    sampling loop.  The firmware keeps its state in three globals (the pulse
    counter written by the sensor interrupt, the accumulated litres and the
    "flowing" flag); a Snapshot gathers them together with the LED level,
    whether an MQTT client exists, and the telemetry the client has accepted.
    Floating point is idealised as exact reals. */
module FlowModel {

  /** FATOR_CALIBRACAO: sensor pulses per second for a flow of one litre per minute. */
  const CalibrationFactor: real := 7.5

  /** The rate is in litres per minute and one sampling pass covers one second. */
  const SecondsPerMinute: real := 60.0

  /** Litres measured by a single pulse: 1 / (7.5 * 60). */
  const PulsesPerLitre: real := 450.0

  /** contador_pulsos is a uint32_t. */
  const CounterModulus: int := 0x1_0000_0000

  type U32 = x: int | 0 <= x < CounterModulus

  /** A GPIO output level. */
  type Level = x: int | 0 <= x <= 1

  /** One message handed to the MQTT client: the JSON body's two numbers. */
  datatype Telemetry = Telemetry(flowRateLpm: real, totalLiters: real)

  /** The firmware's globals and the observable outputs. */
  datatype Snapshot = Snapshot(
    pulseCounter: U32,       // contador_pulsos
    totalLiters: real,       // litros_totais
    flowing: bool,           // esta_fluindo
    led: Level,              // level last written to PINO_LED
    client: bool,            // cliente_mqtt != NULL
    sent: seq<Telemetry>)    // messages the client accepted (msg_id >= 0)

  /** The state the globals have before the sampling task first runs
      (the static initialisers and the LED cleared by app_main). */
  function Initial(client: bool): (s: Snapshot)
    ensures s.pulseCounter == 0 && s.totalLiters == 0.0 && !s.flowing
    ensures s.led == 0 && s.client == client && s.sent == []
    ensures Consistent(s)
  {
    Snapshot(0, 0.0, false, 0, client, [])
  }

  /** What every reachable state keeps: the LED shows the flowing flag and
      the accumulated volume is never negative. */
  predicate Consistent(s: Snapshot)
  {
    s.led == (if s.flowing then 1 else 0) && s.totalLiters >= 0.0
  }

  /** `contador_pulsos++` on a uint32_t: wraps to zero past 2^32 - 1. */
  function Incremented(c: U32): (r: U32)
    ensures r == (c + 1) % CounterModulus
    ensures c + 1 < CounterModulus ==> r == c + 1
    ensures c + 1 == CounterModulus ==> r == 0
  {
    if c == CounterModulus - 1 then 0 else c + 1
  }

  /** taxa_fluxo: flow rate in litres per minute for the pulses of one interval. */
  function FlowRate(pulses: nat): (r: real)
    ensures r * CalibrationFactor == pulses as real
    ensures r >= 0.0
    ensures r > 0.0 <==> pulses > 0
  {
    pulses as real / CalibrationFactor
  }

  /** The rates one pass hands to publicar_mensagem_mqtt, in call order:
      0.0 on the flowing-to-stopped edge, then the rate while flowing. */
  function PublishPlan(wasFlowing: bool, nowFlowing: bool, rate: real): (out: seq<real>)
    ensures |out| <= 1
    ensures |out| == 1 <==> wasFlowing || nowFlowing
    ensures nowFlowing ==> out == [rate]
    ensures wasFlowing && !nowFlowing ==> out == [0.0]
  {
    (if !nowFlowing && wasFlowing then [0.0] else [])
    + (if nowFlowing then [rate] else [])
  }

  /** What the client accepts from the planned publishes: nothing without a
      client, nothing when the publish call fails (msg_id < 0); each message
      carries the accumulated volume current at the time of the call. */
  function Accepted(client: bool, msgId: int, rates: seq<real>, total: real): (out: seq<Telemetry>)
    ensures |out| <= |rates|
    ensures !client || msgId < 0 ==> out == []
    ensures client && msgId >= 0 ==>
      |out| == |rates| && forall i :: 0 <= i < |rates| ==> out[i] == Telemetry(rates[i], total)
  {
    if client && msgId >= 0 then seq(|rates|, i requires 0 <= i < |rates| => Telemetry(rates[i], total))
    else []
  }

  /** One pass of the sampling loop, given the result msgId the transport
      returns for this pass's publish call (at most one happens). */
  function Step(s: Snapshot, msgId: int): (r: Snapshot)
    // the counter is drained
    ensures r.pulseCounter == 0
    // flowing exactly when pulses arrived in the interval
    ensures r.flowing <==> s.pulseCounter > 0
    ensures r.led == (if r.flowing then 1 else 0)
    // the volume grows by exactly the drained pulses' litres, never shrinks
    ensures r.totalLiters == s.totalLiters + s.pulseCounter as real / PulsesPerLitre
    ensures r.totalLiters >= s.totalLiters
    ensures s.pulseCounter == 0 ==> r.totalLiters == s.totalLiters
    ensures r.client == s.client
    // telemetry is only ever appended, at most one message per pass
    ensures |s.sent| <= |r.sent| <= |s.sent| + 1 && r.sent[..|s.sent|] == s.sent
    ensures !s.client || msgId < 0 ==> r.sent == s.sent
    ensures !s.flowing && !r.flowing ==> r.sent == s.sent
    ensures s.client && msgId >= 0 && r.flowing ==>
      r.sent == s.sent + [Telemetry(FlowRate(s.pulseCounter), r.totalLiters)]
    ensures s.client && msgId >= 0 && s.flowing && !r.flowing ==>
      r.sent == s.sent + [Telemetry(0.0, r.totalLiters)]
    ensures Consistent(s) ==> Consistent(r)
  {
    var pulses := s.pulseCounter;
    var rate := FlowRate(pulses);
    var now := rate > 0.0;
    var total := if now then s.totalLiters + rate / SecondsPerMinute else s.totalLiters;
    var out := Accepted(s.client, msgId, PublishPlan(s.flowing, now, rate), total);
    assert (s.sent + out)[..|s.sent|] == s.sent;
    Snapshot(0, total, now, if now then 1 else 0, s.client, s.sent + out)
  }
}
