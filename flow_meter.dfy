/** The firmware's globals as one object whose methods update them in place:
    the sensor interrupt, the drain, the publish helper and one pass of the
    sampling task's loop. */
module FlowMeter {
  import opened FlowModel
  import opened FlowTraces

  class Meter {
    var pulseCounter: U32       // contador_pulsos
    var totalLiters: real       // litros_totais
    var flowing: bool           // esta_fluindo
    var led: Level              // PINO_LED output level
    var clientPresent: bool     // cliente_mqtt != NULL
    var sent: seq<Telemetry>    // messages the MQTT client accepted

    function State(): Snapshot
      reads this
    {
      Snapshot(pulseCounter, totalLiters, flowing, led, clientPresent, sent)
    }

    /** The globals' initial values, with the LED driven low at start-up and
        no MQTT client created yet. */
    constructor ()
      ensures State() == Initial(false)
    {
      pulseCounter, totalLiters, flowing, led := 0, 0.0, false, 0;
      clientPresent, sent := false, [];
    }

    /** Storing the handle esp_mqtt_client_init returned; it may be NULL. */
    method SetClient(handleNonNull: bool)
      modifies this`clientPresent
      ensures clientPresent == handleNonNull
    {
      clientPresent := handleNonNull;
    }

    /** isr_sensor_fluxo: one sensor edge; touches the counter only. */
    method Isr()
      modifies this`pulseCounter
      ensures pulseCounter == Incremented(old(pulseCounter))
      ensures State() == Apply(old(State()), Edge)
    {
      pulseCounter := Incremented(pulseCounter);
    }

    /** Read the counter and zero it with the interrupt disabled, taken as
        one atomic step. */
    method Drain() returns (pulses: U32)
      modifies this`pulseCounter
      ensures pulses == old(pulseCounter) && pulseCounter == 0
    {
      pulses := pulseCounter;
      pulseCounter := 0;
    }

    /** publicar_mensagem_mqtt: nothing happens without a client; msgId is
        what esp_mqtt_client_publish returns, and a negative one only logs a
        warning.  Only the outbox can change. */
    method Publish(rate: real, msgId: int)
      modifies this`sent
      ensures sent == old(sent) + (if clientPresent && msgId >= 0
                                   then [Telemetry(rate, totalLiters)] else [])
    {
      if clientPresent {
        if msgId >= 0 {
          sent := sent + [Telemetry(rate, totalLiters)];
        }
      }
    }

    /** One pass of the sampling task's loop (after its one-second delay). */
    method Tick(msgId: int)
      modifies this`pulseCounter, this`totalLiters, this`flowing, this`led, this`sent
      ensures State() == Step(old(State()), msgId)
    {
      var pulses := Drain();
      var rate := FlowRate(pulses);
      var wasFlowing := flowing;
      flowing := rate > 0.0;
      if flowing {
        totalLiters := totalLiters + rate / SecondsPerMinute;
        led := 1;
      } else {
        led := 0;
      }
      if !flowing && wasFlowing {
        Publish(0.0, msgId);
      }
      if flowing {
        Publish(rate, msgId);
      }
    }

    /** The device running through a schedule of sensor edges and sampling
        passes: a finite stretch of the task's endless loop with the
        interrupts that arrive between its passes. */
    method Operate(evs: seq<Event>)
      modifies this`pulseCounter, this`totalLiters, this`flowing, this`led, this`sent
      ensures State() == Run(old(State()), evs)
    {
      ghost var start := State();
      var i := 0;
      while i < |evs|
        invariant 0 <= i <= |evs|
        invariant State() == Run(start, evs[..i])
      {
        RunSnoc(start, evs[..i], evs[i]);
        assert evs[..i + 1] == evs[..i] + [evs[i]];
        match evs[i] {
          case Edge => Isr();
          case Sample(m) => Tick(m);
        }
        i := i + 1;
      }
      assert evs[..i] == evs;
    }
  }
}
