/** The planner's switching rule, as a fold over the candidates it has been offered. */
module Hysteresis {
  import opened Arithmetic
  import opened Common
  import opened ErasurePressure

  /** One call: the candidate offered and the wall clock read during the call. The clock is arbitrary. */
  datatype Sample = Sample(candidate: Plan, now: u64)

  datatype State = State(current: Plan, pending: Plan, pendingSamples: nat, lastSwitchMillis: u64)

  const INITIAL := State(GatewayFanout, GatewayFanout, 0, 0)

  function Step(config: TransferConfig, s: State, x: Sample): State {
    if x.candidate == s.current then
      s.(pending := x.candidate, pendingSamples := 0)
    else
      var samples := if s.pending == x.candidate then s.pendingSamples + 1 else 1;
      if samples >= config.switchAfterSamples && SatSub(x.now, s.lastSwitchMillis) >= config.minimumDwellMs then
        State(x.candidate, x.candidate, 0, x.now)
      else
        s.(pending := x.candidate, pendingSamples := samples)
  }

  /** State after a whole run of calls. */
  function After(config: TransferConfig, run: seq<Sample>): State {
    if run == [] then INITIAL else Step(config, After(config, Front(run)), Last(run))
  }

  /** Length of the run of `plan` that ends the history. */
  function TrailingRun(run: seq<Sample>, plan: Plan): (n: nat)
    ensures n <= |run|
  {
    if run == [] || Last(run).candidate != plan then 0 else 1 + TrailingRun(Front(run), plan)
  }

  lemma {:induction false} TrailingRunIff(run: seq<Sample>, plan: Plan, k: nat)
    ensures TrailingRun(run, plan) >= k <==>
            k <= |run| && forall i :: |run| - k <= i < |run| ==> run[i].candidate == plan
  {
    if k > 0 && run != [] {
      TrailingRunIff(Front(run), plan, k - 1);
    }
  }

  /** The samples a switch needs: a configured 0 behaves like 1. */
  function Patience(config: TransferConfig): (k: nat)
    ensures k >= 1
  {
    Max(config.switchAfterSamples, 1)
  }

  /** The last call switched the plan. */
  predicate SwitchedLast(config: TransferConfig, run: seq<Sample>)
    requires run != []
  {
    After(config, run).current != After(config, Front(run)).current
  }

  /** Indices of the calls that switched the plan, in order. */
  function Switches(config: TransferConfig, run: seq<Sample>): (calls: seq<nat>)
    ensures forall i :: 0 <= i < |calls| ==> calls[i] < |run|
  {
    if run == [] then []
    else Switches(config, Front(run)) + if SwitchedLast(config, run) then [|run| - 1] else []
  }

  /** The pending plan is the last candidate; the counter is the length of its trailing run while it differs
      from the current plan, and 0 otherwise. It never exceeds the number of calls. */
  lemma {:induction false} PendingCounter(config: TransferConfig, run: seq<Sample>)
    ensures var s := After(config, run);
            && s.pending == (if run == [] then GatewayFanout else Last(run).candidate)
            && s.pendingSamples == (if s.pending == s.current then 0 else TrailingRun(run, s.pending))
            && s.pendingSamples <= |run|
  {
    if run != [] {
      PendingCounter(config, Front(run));
    }
  }

  /** The last max(switch_after_samples, 1) candidates were all the last one, and the dwell since the previous switch
      (or since time 0) is over. */
  predicate Due(config: TransferConfig, run: seq<Sample>)
    requires run != []
  {
    var before, c, k := After(config, Front(run)), Last(run).candidate, Patience(config);
    && k <= |run|
    && (forall i :: |run| - k <= i < |run| ==> run[i].candidate == c)
    && SatSub(Last(run).now, before.lastSwitchMillis) >= config.minimumDwellMs
  }

  /** A call switches to its candidate exactly when the candidate is not the current plan and the switch is due. */
  lemma SwitchIff(config: TransferConfig, run: seq<Sample>)
    requires run != []
    ensures var before, c := After(config, Front(run)), Last(run).candidate;
            && After(config, run).current == (if SwitchedLast(config, run) then c else before.current)
            && (SwitchedLast(config, run) <==> c != before.current && Due(config, run))
  {
    PendingCounter(config, Front(run));
    TrailingRunIff(run, Last(run).candidate, Patience(config));
  }

  /** After a call the counter is the trailing run of its candidate if and only if that was not the current plan
      before the call and no switch was due. */
  lemma PendingCounterIsTrailingRunIff(config: TransferConfig, run: seq<Sample>)
    requires run != []
    ensures var before, c := After(config, Front(run)), Last(run).candidate;
            && After(config, run).pending == c
            && (After(config, run).pendingSamples == TrailingRun(run, c)
                <==> c != before.current && !Due(config, run))
  {
    PendingCounter(config, run);
    SwitchIff(config, run);
    TrailingRunIff(run, Last(run).candidate, 1);
  }

  /** A first sample of the initial plan: the run has length 1 and the counter stays 0. */
  lemma PendingCounterDiffers(config: TransferConfig, now: u64)
    ensures var run := [Sample(GatewayFanout, now)];
            After(config, run).pendingSamples == 0 && TrailingRun(run, GatewayFanout) == 1
  {
    var run := [Sample(GatewayFanout, now)];
    assert Front(run) == [] && After(config, []).current == GatewayFanout;
    PendingCounter(config, run);
    SwitchIff(config, run);
    TrailingRunIff(run, GatewayFanout, 1);
  }

  lemma Distribute(n: nat, d: nat)
    ensures (n + 1) * d == n * d + d
  {
  }

  lemma SwitchCost(config: TransferConfig, s: State, x: Sample)
    ensures var t := Step(config, s, x);
            && (t.current != s.current ==> t.pendingSamples == 0 && s.pendingSamples + 1 >= Patience(config))
            && (t.current == s.current ==> t.pendingSamples <= s.pendingSamples + 1)
  {
  }

  /** Every switch is paid for by its own `Patience` calls, and so is the pending counter. */
  lemma {:induction false} SwitchBudget(config: TransferConfig, run: seq<Sample>)
    ensures |Switches(config, run)| * Patience(config) + After(config, run).pendingSamples <= |run|
  {
    if run != [] {
      var k, n := Patience(config), |Switches(config, Front(run))|;
      SwitchBudget(config, Front(run));
      SwitchCost(config, After(config, Front(run)), Last(run));
      if SwitchedLast(config, run) {
        Distribute(n, k);
      }
    }
  }

  /** n calls make at most n / k switches. */
  lemma SwitchCount(config: TransferConfig, run: seq<Sample>)
    ensures |Switches(config, run)| <= Div(|run|, Patience(config))
  {
    SwitchBudget(config, run);
    QuotientBound(Patience(config), |Switches(config, run)|, |run|);
  }

  /** The recorded switch time is the clock of the last switching call (0 before the first switch). */
  lemma {:induction false} LastSwitchTime(config: TransferConfig, run: seq<Sample>)
    ensures var calls := Switches(config, run);
            After(config, run).lastSwitchMillis == if calls == [] then 0 else run[Last(calls)].now
  {
    if run != [] {
      LastSwitchTime(config, Front(run));
    }
  }

  function SwitchTimes(config: TransferConfig, run: seq<Sample>): (times: seq<u64>) {
    var calls := Switches(config, run);
    seq(|calls|, i requires 0 <= i < |calls| => run[calls[i]].now)
  }

  lemma {:induction false} SwitchesOfPrefix(config: TransferConfig, run: seq<Sample>)
    requires run != []
    ensures SwitchTimes(config, run) == SwitchTimes(config, Front(run))
                                        + if SwitchedLast(config, run) then [Last(run).now] else []
  {
  }

  lemma SwitchGap(config: TransferConfig, s: State, x: Sample)
    requires config.minimumDwellMs > 0
    requires Step(config, s, x).current != s.current
    ensures x.now >= s.lastSwitchMillis + config.minimumDwellMs
  {
  }

  /** Under any clock, consecutive switches are at least the dwell apart, and the first one is at least the
      dwell after time 0. (With no dwell configured the clock may even run backwards between two switches.) */
  lemma {:induction false} SwitchesDwell(config: TransferConfig, run: seq<Sample>)
    requires config.minimumDwellMs > 0
    ensures var times := SwitchTimes(config, run);
            && (times != [] ==> times[0] >= config.minimumDwellMs)
            && forall i :: 0 <= i < |times| - 1 ==> times[i + 1] >= times[i] + config.minimumDwellMs
  {
    if run != [] {
      SwitchesDwell(config, Front(run));
      SwitchesOfPrefix(config, run);
      LastSwitchTime(config, Front(run));
      if SwitchedLast(config, run) {
        var front := SwitchTimes(config, Front(run));
        assert front != [] ==> Last(front) == After(config, Front(run)).lastSwitchMillis;
        SwitchGap(config, After(config, Front(run)), Last(run));
      }
    }
  }

  /** So n switches need n dwells of clock time. */
  lemma {:induction false} SwitchesTakeTime(config: TransferConfig, run: seq<Sample>)
    ensures config.minimumDwellMs > 0 ==>
              |Switches(config, run)| * config.minimumDwellMs <= After(config, run).lastSwitchMillis
  {
    if run != [] && config.minimumDwellMs > 0 {
      var s, n := After(config, Front(run)), |Switches(config, Front(run))|;
      SwitchesTakeTime(config, Front(run));
      if SwitchedLast(config, run) {
        SwitchGap(config, s, Last(run));
        Distribute(n, config.minimumDwellMs);
        assert After(config, run).lastSwitchMillis == Last(run).now;
      } else {
        assert After(config, run).lastSwitchMillis == s.lastSwitchMillis;
      }
    }
  }

  /** Once every one of the last `Patience` candidates was the same plan and the dwell is over, that plan is in
      force. */
  lemma PatientCandidatePrevails(config: TransferConfig, run: seq<Sample>, plan: Plan)
    requires Patience(config) <= |run|
    requires forall i :: |run| - Patience(config) <= i < |run| ==> run[i].candidate == plan
    requires SatSub(Last(run).now, After(config, Front(run)).lastSwitchMillis) >= config.minimumDwellMs
    ensures After(config, run).current == plan
  {
    SwitchIff(config, run);
  }
}
