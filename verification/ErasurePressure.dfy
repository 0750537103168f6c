/** Pressure estimates and candidate choice of the erasure planner: pure integer arithmetic over a
    snapshot of the planner's counters. All pressures are in thousandths. */
module ErasurePressure {
  import opened Arithmetic
  import opened Common

  datatype Plan = GatewayFanout | DistributedParity | Hierarchical | Pipelined

  datatype Strategy = Adaptive | Forced(plan: Plan)

  datatype TransferConfig = TransferConfig(
    strategy: Strategy,
    gatewayCapacityMbps: u64,
    switchAfterSamples: nat,
    minimumDwellMs: u64,
    minimumAdaptiveStripeBytes: u64)

  datatype Inputs = Inputs(
    logicalBytes: u64,
    encodedBytes: u64,
    failureDomains: u64,
    activeBulkStreams: u64,
    bulkStreamCapacity: u64,
    bulkStreamQueueMicros: u64,
    writeQueuePressure: nat,
    targetQueuePressure: nat,
    activeEncoders: u64,
    encoderCapacity: u64)

  /** What the pressure estimate reads from the planner: the direct-fanout completion average and the
      number of stripes in flight over all plans. */
  datatype Load = Load(directCompletionMicros: u64, activeStripes: u64)

  /** Occupancy of a lane in thousandths, capped at 1000; an unknown capacity counts as idle. */
  function Occupancy(active: u64, capacity: u64): (p: nat)
    ensures p <= 1000
  {
    if capacity == 0 then 0 else Min(Div(SatMul(active, 1000), capacity), 1000)
  }

  function EncodedRatio(inputs: Inputs): nat {
    if inputs.logicalBytes == 0 then 1000
    else Min(Div(SatMul(inputs.encodedBytes, 1000), inputs.logicalBytes), 0xFFFF)
  }

  function TransportQueuePressure(inputs: Inputs): nat {
    Min(SatMul(inputs.bulkStreamQueueMicros, 1000) / 10_000, 1000)
  }

  function CompletionEstimate(load: Load): (micros: nat)
    ensures micros >= 100_000
  {
    if load.directCompletionMicros == 0 then 1_000_000 else Max(load.directCompletionMicros, 100_000)
  }

  /** Bytes per second that direct fanout would put on the gateway link. */
  function Demand(load: Load, inputs: Inputs): nat {
    var active := Max(SatAdd(load.activeStripes, 1), Max(inputs.activeEncoders, 1));
    var gatewayBytes := SatMul(inputs.encodedBytes, 3) / 2;
    Div(SatMul(SatMul(gatewayBytes, active), 1_000_000), CompletionEstimate(load))
  }

  function LinkBytesPerSecond(mbps: u64): (r: nat)
    ensures r > 0
  {
    Max(SatMul(mbps, 1_000_000) / 8, 1)
  }

  function GatewayPressure(mbps: u64, load: Load, inputs: Inputs): nat {
    if mbps == 0 then Occupancy(inputs.activeBulkStreams, inputs.bulkStreamCapacity)
    else Min(Div(SatMul(Demand(load, inputs), 1000), LinkBytesPerSecond(mbps)), 1000)
  }

  function Candidate(config: TransferConfig, load: Load, inputs: Inputs): Plan {
    var pressure := GatewayPressure(config.gatewayCapacityMbps, load, inputs);
    var cpu := Occupancy(inputs.activeEncoders, inputs.encoderCapacity);
    if inputs.encodedBytes < config.minimumAdaptiveStripeBytes then GatewayFanout
    else if EncodedRatio(inputs) <= 350 then GatewayFanout
    else if inputs.targetQueuePressure >= 900 then GatewayFanout
    else if TransportQueuePressure(inputs) >= 900 && inputs.bulkStreamCapacity <= 2 then Pipelined
    else if pressure >= 950 || inputs.writeQueuePressure >= 900 || cpu >= 850 then DistributedParity
    else if pressure >= 850 && inputs.failureDomains >= 3 then Hierarchical
    else if pressure >= 850 || cpu >= 700 then DistributedParity
    else GatewayFanout
  }

  /** `heavier` asks for at least as much of the gateway as `lighter` and is otherwise the same stripe. */
  ghost predicate AtLeastAsHeavy(lighter: Inputs, heavier: Inputs) {
    && lighter.encodedBytes <= heavier.encodedBytes
    && lighter.activeEncoders <= heavier.activeEncoders
    && lighter.activeBulkStreams <= heavier.activeBulkStreams
    && lighter.bulkStreamCapacity == heavier.bulkStreamCapacity
  }

  lemma OccupancyMonotone(a: u64, b: u64, capacity: u64)
    requires a <= b
    ensures Occupancy(a, capacity) <= Occupancy(b, capacity)
  {
    if capacity != 0 {
      SatMulMonotone(a, b, 1000, 1000);
      DivMonotone(SatMul(a, 1000), SatMul(b, 1000), capacity, capacity);
    }
  }

  lemma DemandMonotone(before: Load, after: Load, lighter: Inputs, heavier: Inputs)
    requires before.directCompletionMicros == after.directCompletionMicros
    requires before.activeStripes <= after.activeStripes
    requires AtLeastAsHeavy(lighter, heavier)
    ensures Demand(before, lighter) <= Demand(after, heavier)
  {
    var a := Max(SatAdd(before.activeStripes, 1), Max(lighter.activeEncoders, 1));
    var b := Max(SatAdd(after.activeStripes, 1), Max(heavier.activeEncoders, 1));
    var g := SatMul(lighter.encodedBytes, 3) / 2;
    var h := SatMul(heavier.encodedBytes, 3) / 2;
    assert g <= h;
    SatMulMonotone(g, h, a, b);
    SatMulMonotone(SatMul(g, a), SatMul(h, b), 1_000_000, 1_000_000);
    DivMonotone(SatMul(SatMul(g, a), 1_000_000), SatMul(SatMul(h, b), 1_000_000),
                CompletionEstimate(before), CompletionEstimate(after));
  }

  /** Gateway pressure stays in 0..1000 and grows with encoded bytes and with active work, through every
      saturation point and for every configured capacity. */
  lemma PressureMonotone(mbps: u64, before: Load, after: Load, lighter: Inputs, heavier: Inputs)
    requires before.directCompletionMicros == after.directCompletionMicros
    requires before.activeStripes <= after.activeStripes
    requires AtLeastAsHeavy(lighter, heavier)
    ensures GatewayPressure(mbps, before, lighter) <= GatewayPressure(mbps, after, heavier) <= 1000
  {
    if mbps == 0 {
      OccupancyMonotone(lighter.activeBulkStreams, heavier.activeBulkStreams, lighter.bulkStreamCapacity);
    } else {
      var d, e := Demand(before, lighter), Demand(after, heavier);
      DemandMonotone(before, after, lighter, heavier);
      SatMulMonotone(d, e, 1000, 1000);
      DivMonotone(SatMul(d, 1000), SatMul(e, 1000), LinkBytesPerSecond(mbps), LinkBytesPerSecond(mbps));
    }
  }

  lemma LinkMonotone(low: u64, high: u64)
    requires low <= high
    ensures LinkBytesPerSecond(low) <= LinkBytesPerSecond(high)
  {
    SatMulMonotone(low, high, 1_000_000, 1_000_000);
  }

  /** Gateway pressure falls as a configured (non-zero) capacity is raised. */
  lemma PressureAntitoneInCapacity(low: u64, high: u64, load: Load, inputs: Inputs)
    requires 0 < low <= high
    ensures GatewayPressure(high, load, inputs) <= GatewayPressure(low, load, inputs)
  {
    LinkMonotone(low, high);
    var d := SatMul(Demand(load, inputs), 1000);
    DivMonotone(d, d, LinkBytesPerSecond(high), LinkBytesPerSecond(low));
  }

  /** Raising the capacity from `low` to `high` never moves any stripe off direct fanout. */
  ghost predicate RaisingKeepsDirect(config: TransferConfig, low: u64, high: u64) {
    forall load: Load, inputs: Inputs ::
      Candidate(config.(gatewayCapacityMbps := low), load, inputs).GatewayFanout? ==>
        Candidate(config.(gatewayCapacityMbps := high), load, inputs).GatewayFanout?
  }

  /** The largest pressure any stripe can reach on a link of this capacity: demand saturates at 2^64-1
      byte-microseconds over the 100 ms floor of the completion estimate. */
  function PeakPressure(mbps: u64): nat {
    Min(Div(SatMul(U64_MAX / 100_000, 1000), LinkBytesPerSecond(mbps)), 1000)
  }

  lemma PressureBelowPeak(mbps: u64, load: Load, inputs: Inputs)
    requires mbps > 0
    ensures GatewayPressure(mbps, load, inputs) <= PeakPressure(mbps)
  {
    var d := Demand(load, inputs);
    var gatewayBytes := SatMul(inputs.encodedBytes, 3) / 2;
    var active := Max(SatAdd(load.activeStripes, 1), Max(inputs.activeEncoders, 1));
    DivMonotone(SatMul(SatMul(gatewayBytes, active), 1_000_000), U64_MAX, CompletionEstimate(load), 100_000);
    SatMulMonotone(d, U64_MAX / 100_000, 1000, 1000);
    DivMonotone(SatMul(d, 1000), SatMul(U64_MAX / 100_000, 1000),
                LinkBytesPerSecond(mbps), LinkBytesPerSecond(mbps));
  }

  /** Raising a configured capacity is always safe. A capacity of 0 means "not configured" and switches the
      estimate to stream occupancy, so raising it from 0 is safe only onto a link that no stripe can load. */
  lemma RaisingCapacityKeepsDirect(config: TransferConfig, low: u64, high: u64)
    requires low < high
    ensures RaisingKeepsDirect(config, low, high) <==> (low > 0 || PeakPressure(high) < 850)
  {
    var at := (mbps: u64) => config.(gatewayCapacityMbps := mbps);
    if low > 0 || PeakPressure(high) < 850 {
      forall load: Load, inputs: Inputs | Candidate(at(low), load, inputs).GatewayFanout?
        ensures Candidate(at(high), load, inputs).GatewayFanout?
      {
        if low > 0 {
          PressureAntitoneInCapacity(low, high, load, inputs);
        } else {
          PressureBelowPeak(high, load, inputs);
        }
      }
    } else {
      UnconfiguredCapacityLeavesDirect(config, high);
    }
  }

  lemma UnconfiguredCapacityLeavesDirect(config: TransferConfig, high: u64)
    requires high > 0 && PeakPressure(high) >= 850
    ensures !RaisingKeepsDirect(config, 0, high)
  {
    var load := Load(100_000, 0);
    var inputs := Inputs(1, U64_MAX, 1, 0, 3, 0, 0, 0, 1, 0);
    assert SatMul(U64_MAX, 3) / 2 == 0x7FFF_FFFF_FFFF_FFFF;
    assert Demand(load, inputs) == U64_MAX / 100_000;
    assert Candidate(config.(gatewayCapacityMbps := 0), load, inputs).GatewayFanout?;
    assert !Candidate(config.(gatewayCapacityMbps := high), load, inputs).GatewayFanout?;
  }

  // ---- Exponentially weighted averages ----

  const EWMA_SCALE: nat := 8

  function Ewma(average: u64, sample: u64): u64 {
    if average == 0 then sample else SatAdd(SatMul(average, EWMA_SCALE - 1), sample) / EWMA_SCALE
  }

  /** The failure average of a target slot after a history of guard outcomes (true = failed). */
  function FailureEwma(outcomes: seq<bool>): u64
  {
    if outcomes == [] then 0
    else Ewma(FailureEwma(outcomes[..|outcomes| - 1]), if outcomes[|outcomes| - 1] then 1000 else 0)
  }

  lemma {:induction false} FailureEwmaBounded(outcomes: seq<bool>)
    ensures FailureEwma(outcomes) <= 1000
  {
    if outcomes != [] {
      FailureEwmaBounded(outcomes[..|outcomes| - 1]);
    }
  }

  /** `n` equal samples in a row. */
  function Settle(average: u64, sample: u64, n: nat): u64
    decreases n
  {
    if n == 0 then average else Settle(Ewma(average, sample), sample, n - 1)
  }

  lemma {:induction false} FailureEwmaSettles(outcomes: seq<bool>, outcome: bool, n: nat)
    ensures FailureEwma(outcomes + Repeat(outcome, n))
         == Settle(FailureEwma(outcomes), if outcome then 1000 else 0, n)
    decreases n
  {
    if n == 0 {
      assert outcomes + Repeat(outcome, 0) == outcomes;
    } else {
      var longer := outcomes + [outcome];
      assert longer[..|longer| - 1] == outcomes;
      assert outcomes + Repeat(outcome, n) == longer + Repeat(outcome, n - 1);
      FailureEwmaSettles(longer, outcome, n - 1);
    }
  }

  lemma {:induction false} SettleMonotone(low: u64, high: u64, sample: u64, n: nat)
    requires low <= high <= 1000 && sample <= 1000
    requires sample == 0 || low > 0
    ensures Settle(low, sample, n) <= Settle(high, sample, n) <= 1000
    ensures sample == 1000 && low > 0 ==> Settle(low, sample, n) > 0
    decreases n
  {
    if n > 0 {
      assert sample == 1000 ==> Ewma(low, sample) > 0;
      SettleMonotone(Ewma(low, sample), Ewma(high, sample), sample, n - 1);
    }
  }

  predicate Averages(a: nat, sample: nat, b: nat) {
    0 < a <= 1000 && sample <= 1000 && 8 * b <= 7 * a + sample < 8 * b + 8
  }

  lemma OneSample(a: u64, b: u64, sample: u64, n: nat)
    requires Averages(a, sample, b)
    ensures Settle(a, sample, n + 1) == Settle(b, sample, n)
  {
  }

  lemma FiveSamples(a: u64, b: u64, c: u64, d: u64, e: u64, f: u64, sample: u64, n: nat)
    requires Averages(a, sample, b) && Averages(b, sample, c) && Averages(c, sample, d)
    requires Averages(d, sample, e) && Averages(e, sample, f)
    ensures Settle(a, sample, n + 5) == Settle(f, sample, n)
  {
    OneSample(a, b, sample, n + 4);
    OneSample(b, c, sample, n + 3);
    OneSample(c, d, sample, n + 2);
    OneSample(d, e, sample, n + 1);
    OneSample(e, f, sample, n);
  }

  // The slowest decay runs 1000 -> 67 -> 1 in 40 successes, the slowest climb 1 -> 928 -> 993 in 41 failures.

  lemma DecayTo67(n: nat)
    ensures Settle(1000, 0, n + 20) == Settle(67, 0, n)
  {
    FiveSamples(1000, 875, 765, 669, 585, 511, 0, n + 15);
    FiveSamples(511, 447, 391, 342, 299, 261, 0, n + 10);
    FiveSamples(261, 228, 199, 174, 152, 133, 0, n + 5);
    FiveSamples(133, 116, 101, 88, 77, 67, 0, n);
  }

  lemma DecayTo1(n: nat)
    ensures Settle(67, 0, n + 20) == Settle(1, 0, n)
  {
    FiveSamples(67, 58, 50, 43, 37, 32, 0, n + 15);
    FiveSamples(32, 28, 24, 21, 18, 15, 0, n + 10);
    FiveSamples(15, 13, 11, 9, 7, 6, 0, n + 5);
    FiveSamples(6, 5, 4, 3, 2, 1, 0, n);
  }

  lemma ClimbTo928(n: nat)
    ensures Settle(1, 1000, n + 20) == Settle(928, 1000, n)
  {
    FiveSamples(1, 125, 234, 329, 412, 485, 1000, n + 15);
    FiveSamples(485, 549, 605, 654, 697, 734, 1000, n + 10);
    FiveSamples(734, 767, 796, 821, 843, 862, 1000, n + 5);
    FiveSamples(862, 879, 894, 907, 918, 928, 1000, n);
  }

  lemma ClimbTo993(n: nat)
    ensures Settle(928, 1000, n + 21) == Settle(993, 1000, n)
  {
    FiveSamples(928, 937, 944, 951, 957, 962, 1000, n + 16);
    FiveSamples(962, 966, 970, 973, 976, 979, 1000, n + 11);
    FiveSamples(979, 981, 983, 985, 986, 987, 1000, n + 6);
    FiveSamples(987, 988, 989, 990, 991, 992, 1000, n + 1);
    OneSample(992, 993, 1000, n);
  }

  /** Once a sample leaves the average where it is, further equal samples do too. */
  lemma {:induction false} SettleFixed(average: u64, sample: u64, m: nat, n: nat)
    requires m <= n
    requires Ewma(Settle(average, sample, m), sample) == Settle(average, sample, m)
    ensures Settle(average, sample, n) == Settle(average, sample, m)
    decreases m, n
  {
    if m > 0 {
      SettleFixed(Ewma(average, sample), sample, m - 1, n - 1);
    } else if n > 0 {
      SettleFixed(average, sample, 0, n - 1);
    }
  }

  lemma Drained(average: u64, n: nat)
    requires average <= 1000 && n >= 41
    ensures Settle(average, 0, n) == 0
  {
    SettleMonotone(average, 1000, 0, n);
    DecayTo67(n - 20);
    DecayTo1(n - 40);
    assert Settle(1, 0, n - 40) == Settle(0, 0, n - 41);
    SettleFixed(0, 0, 0, n - 41);
  }

  lemma Climbed(average: u64, n: nat)
    requires average <= 1000 && n >= 41
    ensures 993 <= Settle(average, 1000, n) <= 1000
  {
    if average == 0 {
      SettleFixed(1000, 1000, 0, n - 1);
    } else {
      SettleMonotone(1, average, 1000, n);
      ClimbTo928(n - 20);
      ClimbTo993(n - 41);
      SettleFixed(993, 1000, 0, n - 41);
    }
  }

  /** Whatever came before, each success strictly lowers a non-zero failure average, and 41 successes in
      a row bring it to 0. */
  lemma SuccessesDrainFailureEwma(outcomes: seq<bool>, n: nat)
    ensures var before, after := FailureEwma(outcomes), FailureEwma(outcomes + [false]);
            after < before || after == before == 0
    ensures n >= 41 ==> FailureEwma(outcomes + Repeat(false, n)) == 0
  {
    var s := outcomes + [false];
    assert s[..|s| - 1] == outcomes;
    FailureEwmaBounded(outcomes);
    if n >= 41 {
      FailureEwmaSettles(outcomes, false, n);
      Drained(FailureEwma(outcomes), n);
    }
  }

  lemma FortyMore(n: nat)
    ensures Settle(1000, 0, n + 40) == Settle(1, 0, n)
  {
    DecayTo67(n + 20);
    DecayTo1(n);
  }

  /** The bound of 41 is attained: successes after a lone failure drain the average exactly from the 41st on. */
  lemma DrainsFrom41(n: nat)
    ensures FailureEwma([true] + Repeat(false, n)) == 0 <==> n >= 41
  {
    FailureEwmaSettles([true], false, n);
    if n >= 41 {
      Drained(1000, n);
    } else if Settle(1000, 0, n) == 0 {
      SettleFixed(1000, 0, n, n + (40 - n));
      FortyMore(0);
    }
  }

  /** Whatever came before, each failure strictly raises an average below 993; after 41 failures in a row
      the average is at least 993, and further failures leave it exactly where it is. */
  lemma FailuresRaiseFailureEwma(outcomes: seq<bool>, n: nat)
    ensures var before, after := FailureEwma(outcomes), FailureEwma(outcomes + [true]);
            if before < 993 then after > before else after == before
    ensures n >= 41 ==> 993 <= FailureEwma(outcomes + Repeat(true, n)) == FailureEwma(outcomes + Repeat(true, n + 1))
  {
    var s := outcomes + [true];
    assert s[..|s| - 1] == outcomes;
    FailureEwmaBounded(outcomes);
    if n >= 41 {
      FailureEwmaSettles(outcomes, true, n);
      FailureEwmaSettles(outcomes, true, n + 1);
      Climbed(FailureEwma(outcomes), n);
      SettleFixed(FailureEwma(outcomes), 1000, n, n + 1);
    }
  }

  /** Pressure of one target: lane occupancy or failure average, whichever is worse. */
  function TargetPressure(active: u64, capacityPerTarget: u64, failureEwma: u64): nat {
    Max(Min(Div(SatMul(active, 1000), Max(capacityPerTarget, 1)), 1000), Min(failureEwma, 1000))
  }

  function WorstTarget(pressures: seq<nat>): (worst: nat)
    ensures forall p :: p in pressures ==> p <= worst
    ensures worst != 0 ==> worst in pressures
  {
    if pressures == [] then 0
    else
      assert forall p :: p in pressures ==> p in pressures[..|pressures| - 1] || p == pressures[|pressures| - 1];
      Max(WorstTarget(pressures[..|pressures| - 1]), pressures[|pressures| - 1])
  }

  /** A target that failed 41 times in a row forces direct fanout on every stripe it takes part in, whatever
      the other targets, the link and the queues look like. */
  lemma FailingTargetForcesDirect(
      outcomes: seq<bool>, n: nat, active: u64, capacity: u64, pressures: seq<nat>,
      config: TransferConfig, load: Load, inputs: Inputs)
    requires n >= 41
    requires TargetPressure(active, capacity, FailureEwma(outcomes + Repeat(true, n))) in pressures
    requires inputs.targetQueuePressure == WorstTarget(pressures)
    ensures Candidate(config, load, inputs).GatewayFanout?
  {
    FailuresRaiseFailureEwma(outcomes, n);
  }
}
