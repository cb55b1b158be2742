/** Runs of the meter: sensor interrupts interleaved with passes of the
    sampling loop.  An interrupt is taken to happen between passes, never
    inside one (the pass disables the sensor interrupt while it drains). */
module FlowTraces {
  import opened FlowModel

  /** Edge: one call of the sensor interrupt handler.
      Sample(msgId): one pass of the sampling loop, with the result the
      transport returns for that pass's publish call. */
  datatype Event = Edge | Sample(msgId: int)

  function Apply(s: Snapshot, e: Event): Snapshot
  {
    match e
    case Edge => s.(pulseCounter := Incremented(s.pulseCounter))
    case Sample(m) => Step(s, m)
  }

  function Run(s: Snapshot, evs: seq<Event>): Snapshot
    decreases |evs|
  {
    if evs == [] then s else Run(Apply(s, evs[0]), evs[1..])
  }

  /** Number of interrupts in a run. */
  function Edges(evs: seq<Event>): nat
    decreases |evs|
  {
    if evs == [] then 0 else (if evs[0].Edge? then 1 else 0) + Edges(evs[1..])
  }

  /** Number of sampling passes in a run. */
  function Samples(evs: seq<Event>): nat
    decreases |evs|
  {
    if evs == [] then 0 else (if evs[0].Sample? then 1 else 0) + Samples(evs[1..])
  }

  /** Sum of the pulse counts the sampling passes of a run drain. */
  function Drained(s: Snapshot, evs: seq<Event>): nat
    decreases |evs|
  {
    if evs == [] then 0
    else (if evs[0].Sample? then s.pulseCounter else 0) + Drained(Apply(s, evs[0]), evs[1..])
  }

  /** No interrupt of the run finds the counter at 2^32 - 1, so none wraps it. */
  predicate NoWrap(c: U32, evs: seq<Event>)
    decreases |evs|
  {
    evs == [] ||
    match evs[0]
    case Edge => c + 1 < CounterModulus && NoWrap(c + 1, evs[1..])
    case Sample(_) => NoWrap(0, evs[1..])
  }

  lemma {:induction false} RunSnoc(s: Snapshot, evs: seq<Event>, e: Event)
    ensures Run(s, evs + [e]) == Apply(Run(s, evs), e)
    decreases |evs|
  {
    if evs != [] {
      assert (evs + [e])[1..] == evs[1..] + [e];
      RunSnoc(Apply(s, evs[0]), evs[1..], e);
    }
  }

  /** No pulse is lost or counted twice: what the passes drained plus what
      is still in the counter is what was there at the start plus every
      interrupt of the run. */
  lemma {:induction false} NoLossDrain(s: Snapshot, evs: seq<Event>)
    requires NoWrap(s.pulseCounter, evs)
    ensures Drained(s, evs) + Run(s, evs).pulseCounter == s.pulseCounter + Edges(evs)
    decreases |evs|
  {
    if evs != [] {
      NoLossDrain(Apply(s, evs[0]), evs[1..]);
    }
  }

  /** The accumulated volume grows by exactly the drained pulses' litres. */
  lemma {:induction false} VolumeOfRun(s: Snapshot, evs: seq<Event>)
    ensures Run(s, evs).totalLiters == s.totalLiters + Drained(s, evs) as real / PulsesPerLitre
    ensures Run(s, evs).totalLiters >= s.totalLiters
    decreases |evs|
  {
    if evs != [] {
      VolumeOfRun(Apply(s, evs[0]), evs[1..]);
    }
  }

  /** The meter's end-to-end accuracy: the volume reported grows by one
      450th of a litre per pulse, for every pulse that has been drained. */
  lemma MeterAccuracy(s: Snapshot, evs: seq<Event>)
    requires NoWrap(s.pulseCounter, evs)
    ensures Run(s, evs).totalLiters ==
      s.totalLiters + (s.pulseCounter + Edges(evs) - Run(s, evs).pulseCounter) as real / PulsesPerLitre
  {
    NoLossDrain(s, evs);
    VolumeOfRun(s, evs);
  }

  /** From power-up, once the last interrupt has been followed by a pass,
      the total is exactly the number of sensor pulses over 450. */
  lemma AccuracyFromPowerUp(client: bool, evs: seq<Event>, m: int)
    requires NoWrap(0, evs)
    ensures Run(Initial(client), evs + [Sample(m)]).totalLiters == Edges(evs) as real / PulsesPerLitre
  {
    var s := Initial(client);
    RunSnoc(s, evs, Sample(m));
    MeterAccuracy(s, evs);
  }

  /** Every reachable state keeps the LED equal to the flowing flag and a
      non-negative total. */
  lemma {:induction false} RunConsistent(s: Snapshot, evs: seq<Event>)
    requires Consistent(s)
    ensures Consistent(Run(s, evs))
    decreases |evs|
  {
    if evs != [] {
      RunConsistent(Apply(s, evs[0]), evs[1..]);
    }
  }

  /** Telemetry is append-only, at most one message per pass, and none at
      all without a client. */
  lemma {:induction false} RunSent(s: Snapshot, evs: seq<Event>)
    ensures |s.sent| <= |Run(s, evs).sent| <= |s.sent| + Samples(evs)
    ensures Run(s, evs).sent[..|s.sent|] == s.sent
    ensures !s.client ==> Run(s, evs).sent == s.sent
    ensures Run(s, evs).client == s.client
    decreases |evs|
  {
    if evs != [] {
      var t := Apply(s, evs[0]);
      RunSent(t, evs[1..]);
      assert t.sent[..|s.sent|] == s.sent;
      assert Run(s, evs).sent[..|t.sent|][..|s.sent|] == Run(s, evs).sent[..|s.sent|];
    }
  }

  predicate AllSamples(evs: seq<Event>)
  {
    forall i :: 0 <= i < |evs| ==> evs[i].Sample?
  }

  /** The stop announcement is edge-triggered: with no further pulses, a
      meter that was flowing publishes one 0.0 reading on its next pass (if
      that publish succeeds) and then nothing, and a stopped meter stays
      silent. */
  lemma {:induction false} QuietAfterStop(s: Snapshot, evs: seq<Event>)
    requires s.pulseCounter == 0 && AllSamples(evs)
    ensures Run(s, evs).sent ==
      s.sent + (if s.flowing && evs != [] && s.client && evs[0].msgId >= 0
                then [Telemetry(0.0, s.totalLiters)] else [])
    ensures evs != [] ==> !Run(s, evs).flowing
    decreases |evs|
  {
    if evs != [] {
      var t := Apply(s, evs[0]);
      assert t.pulseCounter == 0 && !t.flowing && t.totalLiters == s.totalLiters;
      assert AllSamples(evs[1..]) by {
        forall i | 0 <= i < |evs[1..]| ensures evs[1..][i].Sample? {
          assert evs[1..][i] == evs[i + 1];
        }
      }
      QuietAfterStop(t, evs[1..]);
    }
  }

  /** A worked reading: 75 pulses in one second of flow is 10 L/min, one
      sixth of a litre, and that is what the pass publishes. */
  lemma TenLitresPerMinute(s: Snapshot, m: int)
    requires s.pulseCounter == 75 && s.client && m >= 0
    ensures Step(s, m).flowing && Step(s, m).led == 1
    ensures Step(s, m).totalLiters == s.totalLiters + 1.0 / 6.0
    ensures Step(s, m).sent == s.sent + [Telemetry(10.0, s.totalLiters + 1.0 / 6.0)]
  {
  }
}
