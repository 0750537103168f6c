/** The erasure planner object: shared counters changed in place by plan selection and by the drops of the
    plan, target and encoding guards. Each method is one atomic step; the clock is an argument. The source's
    parallel arrays indexed by plan (or by target slot) are one table of records per index here. */
module ErasurePlanner {
  import opened Arithmetic
  import opened Common
  import opened ErasurePressure
  import H = Hysteresis

  // ---- What a run of plan guards adds up to ----

  /** What a plan guard contributed when it was dropped. */
  datatype Outcome = Outcome(plan: Plan, logicalBytes: u64, gatewayBytes: u64, internalBytes: u64,
                             crossDomainBytes: u64, elapsedMicros: u64, failed: bool)

  datatype Counters = Counters(completed: nat, failures: nat, logicalBytes: u64, gatewayBytes: u64,
                               internalBytes: u64, crossDomainBytes: u64, completionMicros: u64,
                               completionEwma: u64)

  const ZERO := Counters(0, 0, 0, 0, 0, 0, 0, 0)

  /** `fetch_add` on an `AtomicU64`. */
  function WrappingAdd(a: u64, b: u64): u64 { (a + b) % U64_RANGE }

  /** The counters of one plan after its guard is dropped. */
  function Absorb(c: Counters, x: Outcome): Counters {
    Counters(
      if x.failed then c.completed else c.completed + 1,
      if x.failed then c.failures + 1 else c.failures,
      WrappingAdd(c.logicalBytes, x.logicalBytes),
      WrappingAdd(c.gatewayBytes, x.gatewayBytes),
      WrappingAdd(c.internalBytes, x.internalBytes),
      WrappingAdd(c.crossDomainBytes, x.crossDomainBytes),
      WrappingAdd(c.completionMicros, x.elapsedMicros),
      if x.failed then c.completionEwma else Ewma(c.completionEwma, x.elapsedMicros))
  }

  function Tally(log: seq<Outcome>, plan: Plan): Counters {
    if log == [] then ZERO
    else
      var rest, x := Tally(Front(log), plan), Last(log);
      if x.plan == plan then Absorb(rest, x) else rest
  }

  /** The guards of one plan with one verdict, in drop order. */
  function Verdicts(log: seq<Outcome>, plan: Plan, failed: bool): seq<Outcome> {
    if log == [] then []
    else Verdicts(Front(log), plan, failed)
         + if Last(log).plan == plan && Last(log).failed == failed then [Last(log)] else []
  }

  /** The quantities that are summed over the guards of a plan. */
  datatype Amount = Logical | Gateway | Internal | CrossDomain | Elapsed

  function Contributed(x: Outcome, amount: Amount): u64 {
    match amount
    case Logical => x.logicalBytes
    case Gateway => x.gatewayBytes
    case Internal => x.internalBytes
    case CrossDomain => x.crossDomainBytes
    case Elapsed => x.elapsedMicros
  }

  function Reported(c: Counters, amount: Amount): u64 {
    match amount
    case Logical => c.logicalBytes
    case Gateway => c.gatewayBytes
    case Internal => c.internalBytes
    case CrossDomain => c.crossDomainBytes
    case Elapsed => c.completionMicros
  }

  /** Sum of one amount over the dropped guards of a plan. */
  function Total(log: seq<Outcome>, plan: Plan, amount: Amount): nat {
    if log == [] then 0
    else Total(Front(log), plan, amount)
         + if Last(log).plan == plan then Contributed(Last(log), amount) else 0
  }

  lemma WrapStep(sum: nat, total: u64, amount: u64)
    requires total == sum % U64_RANGE
    ensures WrappingAdd(total, amount) == (sum + amount) % U64_RANGE
  {
  }

  /** After any run of drops, `completed` counts exactly the guards marked complete before their drop and
      `failures` all the others. */
  lemma {:induction false} TallyCounts(log: seq<Outcome>, plan: Plan)
    ensures Tally(log, plan).completed == |Verdicts(log, plan, false)|
    ensures Tally(log, plan).failures == |Verdicts(log, plan, true)|
  {
    if log != [] {
      TallyCounts(Front(log), plan);
    }
  }

  /** Every reported total is the sum over the dropped guards modulo 2^64. */
  lemma {:induction false} TallyWraps(log: seq<Outcome>, plan: Plan, amount: Amount)
    ensures Reported(Tally(log, plan), amount) == Total(log, plan, amount) % U64_RANGE
  {
    if log != [] {
      var front := Front(log);
      TallyWraps(front, plan, amount);
      WrapStep(Total(front, plan, amount), Reported(Tally(front, plan), amount), Contributed(Last(log), amount));
    }
  }

  lemma ExactIff(total: nat)
    ensures total % U64_RANGE == total <==> total < U64_RANGE
  {
  }

  /** So a reported total is the true sum exactly while the true sum fits 64 bits. */
  lemma TotalExactIff(log: seq<Outcome>, plan: Plan, amount: Amount)
    ensures Reported(Tally(log, plan), amount) == Total(log, plan, amount) <==> Total(log, plan, amount) < U64_RANGE
  {
    TallyWraps(log, plan, amount);
    ExactIff(Total(log, plan, amount));
  }

  function CountPlan(begun: seq<Plan>, plan: Plan): nat {
    if begun == [] then 0 else CountPlan(Front(begun), plan) + if Last(begun) == plan then 1 else 0
  }

  /** The table counts how often each plan was chosen. */
  ghost predicate Counted(selected: map<Plan, nat>, chosen: seq<Plan>) {
    forall plan: Plan :: plan in selected && selected[plan] == CountPlan(chosen, plan)
  }

  lemma CountedStep(selected: map<Plan, nat>, chosen: seq<Plan>, plan: Plan)
    requires Counted(selected, chosen)
    ensures plan in selected && Counted(selected[plan := selected[plan] + 1], chosen + [plan])
  {
    assert Front(chosen + [plan]) == chosen;
  }

  function PerPlan<T>(value: T): (table: map<Plan, T>)
    ensures forall p: Plan :: p in table && table[p] == value
  {
    var table := map[GatewayFanout := value, DistributedParity := value, Hierarchical := value, Pipelined := value];
    assert forall p: Plan :: p in table && table[p] == value by {
      forall p: Plan
        ensures p in table && table[p] == value
      {
        assert p == GatewayFanout || p == DistributedParity || p == Hierarchical || p == Pipelined;
      }
    }
    table
  }

  // ---- Plan guards ----

  class PlanGuard {
    const plan: Plan
    const logicalBytes: u64
    var gatewayBytes: u64
    var internalBytes: u64
    var crossDomainBytes: u64
    var failed: bool

    constructor (plan: Plan, logicalBytes: u64)
      ensures this.plan == plan && this.logicalBytes == logicalBytes
      ensures gatewayBytes == internalBytes == crossDomainBytes == 0 && failed
    {
      this.plan, this.logicalBytes := plan, logicalBytes;
      gatewayBytes, internalBytes, crossDomainBytes, failed := 0, 0, 0, true;
    }

    method AddGatewayBytes(bytes: u64)
      modifies this`gatewayBytes
      ensures gatewayBytes == Min(old(gatewayBytes) + bytes, U64_MAX)
    {
      gatewayBytes := SatAdd(gatewayBytes, bytes);
    }

    method AddInternalBytes(bytes: u64)
      modifies this`internalBytes
      ensures internalBytes == Min(old(internalBytes) + bytes, U64_MAX)
    {
      internalBytes := SatAdd(internalBytes, bytes);
    }

    method AddCrossDomainBytes(bytes: u64)
      modifies this`crossDomainBytes
      ensures crossDomainBytes == Min(old(crossDomainBytes) + bytes, U64_MAX)
    {
      crossDomainBytes := SatAdd(crossDomainBytes, bytes);
    }

    method Complete()
      modifies this`failed
      ensures !failed
    {
      failed := false;
    }

    function Contribution(elapsedMicros: u64): Outcome
      reads this
    {
      Outcome(plan, logicalBytes, gatewayBytes, internalBytes, crossDomainBytes, elapsedMicros, failed)
    }
  }

  /** The per-plan counters and the guards that feed them. */
  class PlanLedger {
    var active: map<Plan, nat>
    var counters: map<Plan, Counters>
    ghost var begun: seq<Plan>        // guards handed out
    ghost var live: set<PlanGuard>    // guards not yet dropped
    ghost var dropped: seq<Outcome>   // what the dropped ones contributed

    ghost function LiveOn(plan: Plan): set<PlanGuard>
      reads this`live
    {
      set g | g in live && g.plan == plan
    }

    /** The active counter is the number of live guards, the counters are the tally of the drops, and
        begun = live + completed + failed. */
    ghost predicate Balanced(plan: Plan)
      reads this
    {
      && plan in active && plan in counters
      && active[plan] == |LiveOn(plan)|
      && counters[plan] == Tally(dropped, plan)
      && CountPlan(begun, plan) == active[plan] + counters[plan].completed + counters[plan].failures
    }

    ghost predicate Valid()
      reads this
    {
      forall plan: Plan :: Balanced(plan)
    }

    constructor ()
      ensures Valid() && begun == [] && dropped == [] && live == {}
    {
      active, counters := PerPlan(0), PerPlan(ZERO);
      begun, live, dropped := [], {}, [];
      new;
      forall plan: Plan
        ensures Balanced(plan)
      {
        assert LiveOn(plan) == {};
      }
    }

    method Begin(plan: Plan, logicalBytes: u64) returns (guard: PlanGuard)
      requires Valid()
      modifies this`active, this`begun, this`live
      ensures Valid() && fresh(guard) && guard.plan == plan && guard.logicalBytes == logicalBytes && guard.failed
      ensures live == old(live) + {guard} && begun == old(begun) + [plan]
    {
      assert Balanced(plan);
      guard := new PlanGuard(plan, logicalBytes);
      active := active[plan := active[plan] + 1];
      begun, live := begun + [plan], live + {guard};
      assert Front(begun) == old(begun) && guard !in old(live);
      forall p: Plan
        ensures Balanced(p)
      {
        assert old(Balanced(p));
        if p == plan {
          assert LiveOn(p) == old(LiveOn(p)) + {guard};
        } else {
          assert LiveOn(p) == old(LiveOn(p));
        }
      }
    }

    /** `Drop` of a plan guard: the only way a guard leaves the live set, so each one is counted once. */
    method Drop(guard: PlanGuard, elapsedMicros: u64)
      requires Valid() && guard in live
      modifies this`active, this`counters, this`live, this`dropped
      ensures Valid() && live == old(live) - {guard}
      ensures dropped == old(dropped) + [guard.Contribution(elapsedMicros)]
    {
      var plan := guard.plan;
      assert Balanced(plan) && guard in LiveOn(plan);
      active := active[plan := active[plan] - 1];
      var c := counters[plan];
      c := c.(logicalBytes := WrappingAdd(c.logicalBytes, guard.logicalBytes),
              gatewayBytes := WrappingAdd(c.gatewayBytes, guard.gatewayBytes),
              internalBytes := WrappingAdd(c.internalBytes, guard.internalBytes),
              crossDomainBytes := WrappingAdd(c.crossDomainBytes, guard.crossDomainBytes),
              completionMicros := WrappingAdd(c.completionMicros, elapsedMicros));
      if guard.failed {
        c := c.(failures := c.failures + 1);
      } else {
        c := c.(completed := c.completed + 1, completionEwma := Ewma(c.completionEwma, elapsedMicros));
      }
      ghost var x := guard.Contribution(elapsedMicros);
      assert c == Absorb(old(counters[plan]), x);
      counters := counters[plan := c];
      live, dropped := live - {guard}, dropped + [x];
      assert Front(dropped) == old(dropped);
      forall p: Plan
        ensures Balanced(p)
      {
        assert old(Balanced(p));
        if p == plan {
          assert LiveOn(p) == old(LiveOn(p)) - {guard};
        } else {
          assert LiveOn(p) == old(LiveOn(p));
        }
      }
    }

    /** The live load that the pressure estimate is computed from. */
    function CurrentLoad(): Load
      requires Valid()
      reads this
    {
      assert Balanced(GatewayFanout) && Balanced(DistributedParity) && Balanced(Hierarchical) && Balanced(Pipelined);
      Load(counters[GatewayFanout].completionEwma,
           Saturate(active[GatewayFanout] + active[DistributedParity] + active[Hierarchical] + active[Pipelined]))
    }
  }

  // ---- Target and encoding guards ----

  class TargetGuard {
    const slot: nat
    var failed: bool

    constructor (slot: nat)
      ensures this.slot == slot && failed
    {
      this.slot, failed := slot, true;
    }

    method Complete()
      modifies this`failed
      ensures !failed
    {
      failed := false;
    }
  }

  const TARGET_SLOT_COUNT: nat := 64

  datatype Slot = Slot(active: nat, failureEwma: u64)

  lemma EwmaAppend(outcomes: seq<bool>, failed: bool)
    ensures FailureEwma(outcomes + [failed]) == Ewma(FailureEwma(outcomes), if failed then 1000 else 0)
  {
    assert (outcomes + [failed])[..|outcomes|] == outcomes;
  }

  class TargetLedger {
    var slots: seq<Slot>
    ghost var live: set<TargetGuard>
    ghost var outcomes: seq<seq<bool>>  // per slot, true = failed

    ghost function LiveOn(slot: nat): set<TargetGuard>
      reads this`live
    {
      set g | g in live && g.slot == slot
    }

    ghost predicate Valid()
      reads this
    {
      && |slots| == |outcomes| == TARGET_SLOT_COUNT
      && (forall g :: g in live ==> g.slot < TARGET_SLOT_COUNT)
      && (forall i :: 0 <= i < TARGET_SLOT_COUNT ==> SlotOk(i))
    }

    /** A slot counts its live guards and averages its outcomes. */
    ghost predicate SlotOk(i: nat)
      requires i < |slots| && i < |outcomes|
      reads this
    {
      slots[i] == Slot(|LiveOn(i)|, FailureEwma(outcomes[i]))
    }

    constructor ()
      ensures Valid() && live == {} && forall i :: 0 <= i < TARGET_SLOT_COUNT ==> outcomes[i] == []
    {
      slots := seq(64, _ => Slot(0, 0));
      live, outcomes := {}, seq(64, _ => []);
    }

    method Begin(slot: nat) returns (guard: TargetGuard)
      requires Valid() && slot < TARGET_SLOT_COUNT
      modifies this`slots, this`live
      ensures Valid() && fresh(guard) && guard.slot == slot && guard.failed && live == old(live) + {guard}
    {
      guard := new TargetGuard(slot);
      slots := slots[slot := slots[slot].(active := slots[slot].active + 1)];
      live := live + {guard};
      forall i: nat | i < TARGET_SLOT_COUNT
        ensures SlotOk(i)
      {
        assert old(SlotOk(i));
        assert LiveOn(i) == old(LiveOn(i)) + if i == slot then {guard} else {};
      }
    }

    method Drop(guard: TargetGuard)
      requires Valid() && guard in live
      modifies this
      ensures Valid() && live == old(live) - {guard}
      ensures outcomes == old(outcomes)[guard.slot := old(outcomes)[guard.slot] + [guard.failed]]
    {
      var s := guard.slot;
      assert guard in LiveOn(s);
      assert SlotOk(s);
      var before := slots[s];
      slots := slots[s := Slot(before.active - 1, Ewma(before.failureEwma, if guard.failed then 1000 else 0))];
      EwmaAppend(outcomes[s], guard.failed);
      outcomes := outcomes[s := outcomes[s] + [guard.failed]];
      live := live - {guard};
      forall i: nat | i < TARGET_SLOT_COUNT
        ensures SlotOk(i)
      {
        assert old(SlotOk(i));
        assert LiveOn(i) == old(LiveOn(i)) - if i == s then {guard} else {};
      }
    }

    /** Pressure of one slot, in terms of the guards it has live and the outcomes it has seen. */
    ghost function PressureOf(slot: nat, capacityPerTarget: u64): nat
      requires Valid() && slot < TARGET_SLOT_COUNT
      reads this
    {
      TargetPressure(Saturate(|LiveOn(slot)|), capacityPerTarget, FailureEwma(outcomes[slot]))
    }

    /** The worst pressure over the slots of a stripe's targets; 0 when it has none. */
    method Pressure(targets: seq<nat>, capacityPerTarget: u64) returns (worst: nat)
      requires Valid()
      requires forall i :: 0 <= i < |targets| ==> targets[i] < TARGET_SLOT_COUNT
      ensures forall i :: 0 <= i < |targets| ==> PressureOf(targets[i], capacityPerTarget) <= worst
      ensures worst == 0 || (exists i :: 0 <= i < |targets| && worst == PressureOf(targets[i], capacityPerTarget))
    {
      worst := 0;
      for i := 0 to |targets|
        invariant forall j :: 0 <= j < i ==> PressureOf(targets[j], capacityPerTarget) <= worst
        invariant worst == 0 || (exists j :: 0 <= j < i && worst == PressureOf(targets[j], capacityPerTarget))
      {
        assert SlotOk(targets[i]);
        var slot := slots[targets[i]];
        var pressure := TargetPressure(Saturate(slot.active), capacityPerTarget, slot.failureEwma);
        assert pressure == PressureOf(targets[i], capacityPerTarget);
        worst := Max(worst, pressure);
      }
    }
  }

  class EncodingGuard {
    constructor () {}
  }

  // ---- Selection ----

  class SwitchState {
    const config: TransferConfig
    var current: Plan
    var pending: Plan
    var pendingSamples: nat
    var lastSwitchMillis: u64
    ghost var samples: seq<H.Sample>  // every candidate offered so far, with the clock read for it

    ghost predicate Valid()
      reads this
    {
      H.State(current, pending, pendingSamples, lastSwitchMillis) == H.After(config, samples)
    }

    constructor (config: TransferConfig)
      ensures Valid() && this.config == config && samples == []
    {
      this.config := config;
      current, pending, pendingSamples, lastSwitchMillis := GatewayFanout, GatewayFanout, 0, 0;
      samples := [];
    }

    method ApplyHysteresis(candidate: Plan, now: u64) returns (plan: Plan)
      requires Valid()
      modifies this
      ensures Valid() && samples == old(samples) + [H.Sample(candidate, now)]
      ensures plan == current == H.After(config, samples).current
    {
      samples := samples + [H.Sample(candidate, now)];
      assert Front(samples) == old(samples);
      if candidate == current {
        pending, pendingSamples := candidate, 0;
        return current;
      }
      var previousPending := pending;
      pending := candidate;
      if previousPending == candidate {
        pendingSamples := pendingSamples + 1;
      } else {
        pendingSamples := 1;
      }
      var dwellComplete := SatSub(now, lastSwitchMillis) >= config.minimumDwellMs;
      if pendingSamples >= config.switchAfterSamples && dwellComplete {
        current, lastSwitchMillis, pendingSamples := candidate, now, 0;
      }
      plan := current;
    }
  }

  datatype Decision = Decision(plan: Plan, candidate: Plan, gatewayPressure: nat, encodedRatio: nat)

  class Planner {
    const config: TransferConfig
    const switching: SwitchState
    const ledger: PlanLedger
    const targets: TargetLedger
    var selected: map<Plan, nat>
    var activeEncoders: nat
    ghost var chosen: seq<Plan>                 // plans returned by Select
    ghost var liveEncoders: set<EncodingGuard>

    ghost predicate Valid()
      reads this, switching, ledger, targets
    {
      && switching.config == config && switching.Valid() && ledger.Valid() && targets.Valid()
      && activeEncoders == |liveEncoders|
      && Counted(selected, chosen)
    }

    constructor (config: TransferConfig)
      ensures Valid() && this.config == config && chosen == [] && liveEncoders == {}
      ensures fresh(switching) && fresh(ledger) && fresh(targets)
    {
      this.config := config;
      switching := new SwitchState(config);
      ledger := new PlanLedger();
      targets := new TargetLedger();
      selected := PerPlan(0);
      activeEncoders, chosen, liveEncoders := 0, [], {};
    }

    function Observed(inputs: Inputs): Inputs
      reads this
    {
      inputs.(activeEncoders := Max(inputs.activeEncoders, Saturate(activeEncoders)))
    }

    /** The candidate is the pure choice from the live load; a forced strategy overrides it without touching the
        switching state; otherwise the plan is what the switching rule makes of the whole run of candidates. */
    method Select(inputs: Inputs, now: u64) returns (decision: Decision)
      requires Valid()
      modifies this`selected, this`chosen, switching
      ensures Valid() && chosen == old(chosen) + [decision.plan]
      ensures decision.candidate == Candidate(config, ledger.CurrentLoad(), Observed(inputs))
      ensures decision.gatewayPressure
           == GatewayPressure(config.gatewayCapacityMbps, ledger.CurrentLoad(), Observed(inputs))
      ensures match config.strategy
              case Forced(plan) => decision.plan == plan && switching.samples == old(switching.samples)
              case Adaptive =>
                && switching.samples == old(switching.samples) + [H.Sample(decision.candidate, now)]
                && decision.plan == H.After(config, switching.samples).current
    {
      var observed := Observed(inputs);
      var load := ledger.CurrentLoad();
      var candidate := Candidate(config, load, observed);
      var plan;
      match config.strategy {
        case Forced(forced) => plan := forced;
        case Adaptive => plan := switching.ApplyHysteresis(candidate, now);
      }
      CountedStep(selected, chosen, plan);
      selected := selected[plan := selected[plan] + 1];
      chosen := chosen + [plan];
      decision := Decision(plan, candidate, GatewayPressure(config.gatewayCapacityMbps, load, observed),
                           EncodedRatio(observed));
    }

    method BeginEncoding() returns (guard: EncodingGuard)
      requires Valid()
      modifies this`activeEncoders, this`liveEncoders
      ensures Valid() && fresh(guard) && liveEncoders == old(liveEncoders) + {guard}
    {
      guard := new EncodingGuard();
      activeEncoders, liveEncoders := activeEncoders + 1, liveEncoders + {guard};
    }

    method DropEncoding(guard: EncodingGuard)
      requires Valid() && guard in liveEncoders
      modifies this`activeEncoders, this`liveEncoders
      ensures Valid() && liveEncoders == old(liveEncoders) - {guard}
    {
      activeEncoders, liveEncoders := activeEncoders - 1, liveEncoders - {guard};
    }
  }
}
