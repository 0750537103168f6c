/** How often a job is executed. A task begins a job without asking whether it has run before, so everything depends on
    how many tasks are ever spawned for it. */
module ComputeOnce {
  import opened Common
  import opened ComputeJobs
  import opened ComputeRuns

  /** The step stores the job as running and lets its task execute it. */
  predicate Executes(s: State, step: Step, id: JobId) {
    && step.ByTask? && step.act.StartPersist? && step.act.ok
    && step.task in s.tasks && s.tasks[step.task].id == id
  }

  /** No submission starts before the recovery scan that follows a start of the agent. */
  predicate Recovered(s: State, step: Step) {
    step.BySubmit? && step.submit.SubmitLookup? ==> !s.booting
  }

  ghost predicate AfterRecovery(states: seq<State>, steps: seq<Step>) {
    |states| == |steps| + 1 && forall i :: 0 <= i < |steps| ==> Recovered(states[i], steps[i])
  }

  // ---- Tickets: whatever may still lead to an execution of a job ----

  function Occurrences(jobs: seq<Job>, id: JobId): nat {
    if jobs == [] then 0 else Occurrences(Front(jobs), id) + if Last(jobs).id == id then 1 else 0
  }

  lemma {:induction false} OccurrencesJoin(a: seq<Job>, b: seq<Job>, id: JobId)
    ensures Occurrences(a + b, id) == Occurrences(a, id) + Occurrences(b, id)
  {
    if b == [] {
      assert a + b == a;
    } else {
      OccurrencesJoin(a, Front(b), id);
      assert Front(a + b) == a + Front(b);
    }
  }

  lemma OccurrencesOne(jobs: seq<Job>, job: Job, id: JobId)
    ensures Occurrences(jobs + [job], id) == Occurrences(jobs, id) + if job.id == id then 1 else 0
  {
    assert Front(jobs + [job]) == jobs;
  }

  lemma OccurrencesWithout(jobs: seq<Job>, k: nat, id: JobId)
    requires k < |jobs|
    ensures Occurrences(jobs, id) == Occurrences(Without(jobs, k), id) + if jobs[k].id == id then 1 else 0
  {
    assert jobs == jobs[..k] + [jobs[k]] + jobs[k + 1..];
    OccurrencesJoin(jobs[..k] + [jobs[k]], jobs[k + 1..], id);
    OccurrencesOne(jobs[..k], jobs[k], id);
    OccurrencesJoin(jobs[..k], jobs[k + 1..], id);
  }

  lemma {:induction false} OccurrencesNone(jobs: seq<Job>, id: JobId)
    ensures Occurrences(jobs, id) == 0 <==> forall k :: 0 <= k < |jobs| ==> jobs[k].id != id
  {
    if jobs != [] {
      OccurrencesNone(Front(jobs), id);
    }
  }

  predicate Unstarted(phase: Phase) { phase.Spawned? || phase.Starting? }

  function Waiting(tasks: map<TaskId, Task>, id: JobId): set<TaskId> {
    set t | t in tasks && tasks[t].id == id && Unstarted(tasks[t].phase)
  }

  function Scanned(recovering: map<JobId, Job>, id: JobId): nat {
    if id in recovering && recovering[id].status == Queued then 1 else 0
  }

  function Tickets(s: State, id: JobId): nat {
    Occurrences(s.checked, id) + Occurrences(s.submitted, id) + Scanned(s.recovering, id) + |Waiting(s.tasks, id)|
  }

  /** What the tickets depend on. */
  predicate SameQueues(s: State, later: State) {
    later.checked == s.checked && later.submitted == s.submitted && later.recovering == s.recovering
  }

  lemma TaskFrame(config: Config, s: State, task: TaskId, act: TaskAction)
    requires TaskEnabled(s, task, act)
    ensures SameQueues(s, ApplyTask(config, s, task, act))
  {
  }

  lemma TaskWaiting(config: Config, s: State, task: TaskId, act: TaskAction, id: JobId)
    requires TaskEnabled(s, task, act)
    ensures var later := Waiting(ApplyTask(config, s, task, act).tasks, id);
            && later <= Waiting(s.tasks, id)
            && (act.StartPersist? && s.tasks[task].id == id ==> task in Waiting(s.tasks, id) && task !in later)
  {
    TaskTable(config, s, task, act);
    if !act.Leave? && !act.AbortLands? {
      TaskPhase(config, s, task, act);
    }
  }

  lemma TicketsByTask(config: Config, s: State, task: TaskId, act: TaskAction, id: JobId)
    requires TaskEnabled(s, task, act)
    ensures var later := ApplyTask(config, s, task, act);
            Tickets(later, id) + (if act.StartPersist? && s.tasks[task].id == id then 1 else 0) <= Tickets(s, id)
  {
    TaskFrame(config, s, task, act);
    TaskWaiting(config, s, task, act, id);
    var before, after := Waiting(s.tasks, id), Waiting(ApplyTask(config, s, task, act).tasks, id);
    SubsetSize(after, before);
    if act.StartPersist? && s.tasks[task].id == id {
      SubsetSize(after + {task}, before);
    }
  }

  lemma SpawnWaiting(config: Config, s: State, spawned: JobId, task: TaskId, id: JobId)
    requires task !in s.tasks
    ensures var later := Spawn(config, s, spawned, task).0;
            |Waiting(later.tasks, id)| <= |Waiting(s.tasks, id)| + if spawned == id then 1 else 0
  {
    var later := Waiting(Spawn(config, s, spawned, task).0.tasks, id);
    SubsetSize(later, Waiting(s.tasks, id) + if spawned == id then {task} else {});
  }

  lemma TicketsBySpawn(config: Config, s: State, k: nat, task: TaskId, id: JobId)
    requires SubmitEnabled(s, SubmitSpawn(k, task))
    ensures Tickets(ApplySubmit(config, s, SubmitSpawn(k, task)), id) <= Tickets(s, id)
  {
    OccurrencesWithout(s.submitted, k, id);
    SpawnWaiting(config, s.(submitted := Without(s.submitted, k)), s.submitted[k].id, task, id);
  }

  lemma TicketsBySubmit(config: Config, s: State, act: SubmitAction, id: JobId)
    requires SubmitEnabled(s, act)
    ensures Tickets(ApplySubmit(config, s, act), id)
         <= Tickets(s, id) + if act.SubmitLookup? && act.id == id then 1 else 0
  {
    match act
    case SubmitLookup(new_, spec) => OccurrencesOne(s.checked, NewJob(config, new_, spec), id);
    case SubmitRefuse(k) => OccurrencesWithout(s.checked, k, id);
    case SubmitInsert(k) =>
      OccurrencesWithout(s.checked, k, id);
      OccurrencesOne(s.submitted, s.checked[k], id);
    case SubmitSpawn(k, task) => TicketsBySpawn(config, s, k, task, id);
  }

  lemma TicketsByCancel(s: State, act: CancelAction, id: JobId)
    requires CancelEnabled(s, act)
    ensures Tickets(ApplyCancel(s, act), id) == Tickets(s, id)
  {
  }

  lemma TicketsByRecoverQueued(config: Config, s: State, queued: JobId, task: TaskId, id: JobId)
    requires AgentEnabled(s, RecoverQueued(queued, task))
    ensures Tickets(ApplyAgent(config, s, RecoverQueued(queued, task)), id) <= Tickets(s, id)
  {
    SpawnWaiting(config, s.(recovering := s.recovering - {queued}), queued, task, id);
  }

  lemma TicketsByRestart(config: Config, s: State, id: JobId)
    ensures Tickets(ApplyAgent(config, s, Restart), id) == 0
  {
    assert Waiting(EMPTY.tasks, id) == {};
  }

  lemma ScannedAfter(config: Config, s: State, act: AgentAction, id: JobId)
    requires AgentEnabled(s, act) && (act.RecoverScan? || act.RecoverInterrupted?)
    ensures Scanned(ApplyAgent(config, s, act).recovering, id)
         <= if act.RecoverInterrupted? then Scanned(s.recovering, id)
            else if id in s.db && s.db[id].status == Queued then 1 else 0
  {
  }

  /** The recovery scan hands out a ticket for every queued record. */
  lemma TicketsByAgent(config: Config, s: State, act: AgentAction, id: JobId)
    requires AgentEnabled(s, act)
    ensures Tickets(ApplyAgent(config, s, act), id)
         <= Tickets(s, id) + if act.RecoverScan? && id in s.db && s.db[id].status == Queued then 1 else 0
  {
    if act.RecoverQueued? {
      TicketsByRecoverQueued(config, s, act.id, act.task, id);
    } else if act.Restart? {
      TicketsByRestart(config, s, id);
    } else {
      AgentFrame(config, s, act);
      if act.RecoverScan? || act.RecoverInterrupted? {
        ScannedAfter(config, s, act, id);
      }
    }
  }

  lemma AgentFrame(config: Config, s: State, act: AgentAction)
    requires AgentEnabled(s, act) && !act.RecoverQueued? && !act.Restart?
    ensures var later := ApplyAgent(config, s, act);
            && later.checked == s.checked && later.submitted == s.submitted && later.tasks == s.tasks
            && (!act.RecoverScan? && !act.RecoverInterrupted? ==> later.recovering == s.recovering)
            && (later.booting <==> s.booting && !act.RecoverScan?)
  {
  }

  // ---- At most one ticket ----

  /** Nothing is under way: the agent has just started. */
  predicate Quiet(s: State) { s.checked == [] && s.submitted == [] && s.tasks == map[] && s.recovering == map[] }

  predicate TasksKnown(s: State) { forall t :: t in s.tasks ==> s.tasks[t].id in s.db }

  ghost predicate Single(s: State, id: JobId, executed: bool) {
    && Tickets(s, id) <= 1
    && (executed ==> Tickets(s, id) == 0 && id in s.db && s.db[id].status != Queued)
    && (s.booting ==> Quiet(s))
    && TasksKnown(s)
  }

  lemma QuietTickets(s: State, id: JobId)
    requires Quiet(s)
    ensures Tickets(s, id) == 0
  {
    assert Waiting(s.tasks, id) == {};
  }

  /** A job without a record has no ticket but its own pending submission. */
  lemma UnknownTickets(config: Config, s: State, id: JobId)
    requires Inv(config, FULL, s) && TasksKnown(s) && id !in s.db
    requires forall k :: 0 <= k < |s.checked| ==> s.checked[k].id != id
    ensures Tickets(s, id) == 0
  {
    OccurrencesNone(s.checked, id);
    forall k | 0 <= k < |s.submitted|
      ensures s.submitted[k].id != id
    {
      assert Carried(config, FULL, s.db, s.submitted[k]);
    }
    OccurrencesNone(s.submitted, id);
    assert id in s.recovering ==> Carried(config, FULL, s.db, s.recovering[id]);
    assert Waiting(s.tasks, id) == {};
  }

  /** Unless it executes the job itself, a step leaves at most one ticket, and none once the job has been executed. */
  lemma TicketsKept(config: Config, s: State, step: Step, id: JobId, executed: bool)
    requires Inv(config, FULL, s) && Enabled(s, step) && Alone(s, step) && Recovered(s, step)
    requires Single(s, id, executed)
    ensures Tickets(Apply(config, s, step), id) <= if executed || Executes(s, step, id) then 0 else 1
  {
    match step
    case ByTask(task, act) => TicketsByTask(config, s, task, act, id);
    case BySubmit(act) =>
      TicketsBySubmit(config, s, act, id);
      if act.SubmitLookup? && act.id == id {
        UnknownTickets(config, s, id);
      }
    case ByCancel(act) => TicketsByCancel(s, act, id);
    case ByAgent(act) =>
      TicketsByAgent(config, s, act, id);
      if act.RecoverScan? {
        QuietTickets(s, id);
      }
  }

  lemma QuietByAgent(config: Config, s: State, act: AgentAction)
    requires AgentEnabled(s, act) && (s.booting ==> Quiet(s))
    ensures var later := ApplyAgent(config, s, act); later.booting ==> Quiet(later)
  {
    if act.RecoverQueued? {
      assert Spawn(config, s.(recovering := s.recovering - {act.id}), act.id, act.task).0.booting == s.booting;
    } else if !act.Restart? {
      AgentFrame(config, s, act);
    }
  }

  lemma QuietKept(config: Config, s: State, step: Step)
    requires Enabled(s, step) && Recovered(s, step) && (s.booting ==> Quiet(s))
    ensures var later := Apply(config, s, step); later.booting ==> Quiet(later)
  {
    match step
    case ByTask(task, act) => TaskBoots(config, s, task, act);
    case BySubmit(act) => SubmitBoots(config, s, act);
    case ByCancel(act) =>
    case ByAgent(act) => QuietByAgent(config, s, act);
  }

  lemma TaskBoots(config: Config, s: State, task: TaskId, act: TaskAction)
    requires TaskEnabled(s, task, act)
    ensures ApplyTask(config, s, task, act).booting == s.booting
  {
  }

  lemma SubmitBoots(config: Config, s: State, act: SubmitAction)
    requires SubmitEnabled(s, act)
    ensures ApplySubmit(config, s, act).booting == s.booting
  {
  }

  lemma KnownBySpawn(config: Config, s: State, id: JobId, task: TaskId)
    requires TasksKnown(s) && id in s.db
    ensures TasksKnown(Spawn(config, s, id, task).0)
  {
  }

  lemma KnownByTask(config: Config, s: State, task: TaskId, act: TaskAction)
    requires TaskEnabled(s, task, act) && TasksKnown(s)
    ensures var later := ApplyTask(config, s, task, act).tasks; forall t :: t in later ==> later[t].id in s.db
  {
    TaskTable(config, s, task, act);
  }

  lemma KnownBySubmit(config: Config, s: State, act: SubmitAction)
    requires Inv(config, FULL, s) && SubmitEnabled(s, act) && TasksKnown(s)
    ensures var later := ApplySubmit(config, s, act).tasks; forall t :: t in later ==> later[t].id in s.db
  {
    if act.SubmitSpawn? {
      assert Carried(config, FULL, s.db, s.submitted[act.k]);
      KnownBySpawn(config, s.(submitted := Without(s.submitted, act.k)), s.submitted[act.k].id, act.task);
    }
  }

  lemma KnownByAgent(config: Config, s: State, act: AgentAction)
    requires Inv(config, FULL, s) && AgentEnabled(s, act) && TasksKnown(s)
    ensures var later := ApplyAgent(config, s, act).tasks; forall t :: t in later ==> later[t].id in s.db
  {
    if act.RecoverQueued? {
      assert Carried(config, FULL, s.db, s.recovering[act.id]);
      KnownBySpawn(config, s.(recovering := s.recovering - {act.id}), act.id, act.task);
    } else if !act.Restart? {
      AgentFrame(config, s, act);
    }
  }

  lemma KnownKept(config: Config, s: State, step: Step)
    requires Inv(config, FULL, s) && Enabled(s, step) && TasksKnown(s)
    requires Forward(FULL, s.db, Apply(config, s, step).db)
    ensures TasksKnown(Apply(config, s, step))
  {
    match step
    case ByTask(task, act) => KnownByTask(config, s, task, act);
    case BySubmit(act) => KnownBySubmit(config, s, act);
    case ByCancel(act) =>
    case ByAgent(act) => KnownByAgent(config, s, act);
  }

  /** An executed job has left the queue. */
  lemma ExecutedLeft(config: Config, s: State, step: Step, id: JobId)
    requires Inv(config, FULL, s) && Enabled(s, step) && Executes(s, step, id)
    ensures id in Apply(config, s, step).db && Apply(config, s, step).db[id].status != Queued
  {
    assert PhaseOk(config, FULL, s.db, s.tasks[step.task]);
    StepWrites(config, s, step);
  }

  lemma SingleKept(config: Config, s: State, step: Step, id: JobId, executed: bool)
    requires Inv(config, FULL, s) && Enabled(s, step) && StepOk(FULL, s, step) && Alone(s, step) && Recovered(s, step)
    requires Single(s, id, executed)
    ensures Single(Apply(config, s, step), id, executed || Executes(s, step, id))
  {
    StepKeeps(config, FULL, s, step);
    TicketsKept(config, s, step, id, executed);
    QuietKept(config, s, step);
    KnownKept(config, s, step);
    if Executes(s, step, id) {
      ExecutedLeft(config, s, step, id);
    }
  }

  // ---- Whole runs ----

  lemma SingleAt(config: Config, states: seq<State>, steps: seq<Step>, i: nat, id: JobId, executed: bool)
    requires IsRun(config, states, steps) && NoOverlap(states, steps) && AfterRecovery(states, steps) && i < |steps|
    requires Single(states[i], id, executed)
    ensures Single(states[i + 1], id, executed || Executes(states[i], steps[i], id))
  {
    NoOverlapOk(config, FULL, states, steps);
    RunInvariant(config, FULL, states, steps, i);
    assert Goes(config, states[i], steps[i], states[i + 1]) && StepOk(FULL, states[i], steps[i]);
    assert Alone(states[i], steps[i]) && Recovered(states[i], steps[i]);
    SingleKept(config, states[i], steps[i], id, executed);
  }

  lemma {:induction false} SingleChain(states: seq<State>, i: nat, j: nat, id: JobId, executed: bool)
    requires i <= j < |states| && Single(states[i], id, executed)
    requires forall k :: 0 <= k < |states| - 1 ==>
               (Single(states[k], id, executed) ==> Single(states[k + 1], id, executed))
    ensures Single(states[j], id, executed)
    decreases j
  {
    if i < j {
      SingleChain(states, i, j - 1, id, executed);
      assert Single(states[j - 1 + 1], id, executed);
    }
  }

  lemma SingleWeaken(s: State, id: JobId, executed: bool, stronger: bool)
    requires Single(s, id, stronger) && (executed ==> stronger)
    ensures Single(s, id, executed)
  {
  }

  lemma SingleFrom(config: Config, states: seq<State>, steps: seq<Step>, i: nat, j: nat, id: JobId, executed: bool)
    requires IsRun(config, states, steps) && NoOverlap(states, steps) && AfterRecovery(states, steps)
    requires i <= j <= |steps| && Single(states[i], id, executed)
    ensures Single(states[j], id, executed)
  {
    forall k | 0 <= k < |states| - 1 && Single(states[k], id, executed)
      ensures Single(states[k + 1], id, executed)
    {
      SingleAt(config, states, steps, k, id, executed);
      SingleWeaken(states[k + 1], id, executed, executed || Executes(states[k], steps[k], id));
    }
    SingleChain(states, i, j, id, executed);
  }

  /** Whatever crashes and restarts, no job is executed twice, provided that submissions of one id do not overlap and
      that none starts before the recovery scan. */
  lemma ExecutedAtMostOnce(config: Config, states: seq<State>, steps: seq<Step>, i: nat, j: nat, id: JobId)
    requires IsRun(config, states, steps) && NoOverlap(states, steps) && AfterRecovery(states, steps)
    requires i < j < |steps| && Executes(states[i], steps[i], id)
    ensures !Executes(states[j], steps[j], id)
  {
    QuietTickets(EMPTY, id);
    SingleFrom(config, states, steps, 0, i, id, false);
    SingleAt(config, states, steps, i, id, false);
    SingleFrom(config, states, steps, i + 1, j, id, true);
    assert Goes(config, states[j], steps[j], states[j + 1]);
    if Executes(states[j], steps[j], id) {
      TicketsByTask(config, states[j], steps[j].task, steps[j].act, id);
    }
  }

  // ---- Jobs that are executed twice ----

  /** A run that continues `steps`. */
  ghost predicate Continues(
      config: Config, states: seq<State>, steps: seq<Step>, states': seq<State>, steps': seq<Step>, last: State)
  {
    && IsRun(config, states', steps') && states <= states' && steps <= steps' && states'[|steps'|] == last
    && (NoOverlap(states, steps) ==> NoOverlap(states', steps'))
    && (AfterRecovery(states, steps) ==> AfterRecovery(states', steps'))
  }

  lemma Grow(config: Config, states: seq<State>, steps: seq<Step>, step: Step, later: State)
      returns (states': seq<State>, steps': seq<Step>)
    requires IsRun(config, states, steps) && Goes(config, states[|steps|], step, later)
    requires Alone(states[|steps|], step) && Recovered(states[|steps|], step)
    ensures Continues(config, states, steps, states', steps', later) && steps' == steps + [step]
  {
    Extend(config, states, steps, step, later);
    states', steps' := states + [later], steps + [step];
  }

  predicate OnlyGuest(s: State, phase: Phase) {
    s.tasks == map[0 := Task("job", phase)] && s.guests == map[] && s.handles == map["job" := 0]
  }

  lemma GoesErring(config: Config, s: State, job: Job)
    requires OnlyGuest(s, Executing(job))
    ensures Goes(config, s, ByTask(0, ExecError), s.(tasks := map[0 := Task("job", Erring)]))
  {
    assert Release(s.guests, 0) == map[];
  }

  lemma GoesDone(config: Config, s: State)
    requires OnlyGuest(s, Erring)
    ensures Goes(config, s, ByTask(0, WrapLoad(false)), s.(tasks := map[0 := Task("job", Done)]))
  {
    assert Release(s.guests, 0) == map[];
  }

  lemma GoesAway(config: Config, s: State)
    requires OnlyGuest(s, Done)
    ensures Goes(config, s, ByTask(0, Leave), s.(tasks := map[], handles := map[]))
  {
    assert Release(s.guests, 0) == map[];
  }

  /** The task fails without writing anything and leaves. */
  lemma Fails(config: Config, states: seq<State>, steps: seq<Step>, job: Job)
      returns (states': seq<State>, steps': seq<Step>)
    requires IsRun(config, states, steps) && OnlyGuest(states[|steps|], Executing(job))
    ensures Continues(config, states, steps, states', steps', states[|steps|].(tasks := map[], handles := map[]))
    ensures |steps'| == |steps| + 3
  {
    var s := states[|steps|];
    var s1, s2 := s.(tasks := map[0 := Task("job", Erring)]), s.(tasks := map[0 := Task("job", Done)]);
    GoesErring(config, s, job);
    states', steps' := Grow(config, states, steps, ByTask(0, ExecError), s1);
    GoesDone(config, s1);
    states', steps' := Grow(config, states', steps', ByTask(0, WrapLoad(false)), s2);
    GoesAway(config, s2);
    states', steps' := Grow(config, states', steps', ByTask(0, Leave), s.(tasks := map[], handles := map[]));
  }

  /** A task begins the only job. */
  lemma BeginsOnce(config: Config, states: seq<State>, steps: seq<Step>, task: TaskId, job: Job)
      returns (states': seq<State>, steps': seq<Step>)
    requires IsRun(config, states, steps) && OnlyTask(states[|steps|], task, job)
    ensures Continues(config, states, steps, states', steps', Began(states[|steps|], task, job))
    ensures |steps'| == |steps| + 2 && Executes(states'[|steps| + 1], steps'[|steps| + 1], job.id)
  {
    states', steps' := Begins(config, states, steps, task, job);
    if AfterRecovery(states, steps) {
      forall i | 0 <= i < |steps'|
        ensures Recovered(states'[i], steps'[i])
      {
        assert i < |steps| ==> Recovered(states[i], steps[i]);
      }
    }
  }

  /** Two overlapping submissions: the second one spawns its task after the first one's has left. */
  lemma ExecutedTwiceByOverlap(config: Config) returns (states: seq<State>, steps: seq<Step>)
    requires config.queueLimit > 0
    ensures IsRun(config, states, steps) && AfterRecovery(states, steps) && |steps| == 14
    ensures Executes(states[6], steps[6], "job") && Executes(states[13], steps[13], "job")
  {
    var job := NewJob(config, "job", "spec");
    states, steps := OverlapFails(config, job);
    GoesSpawn(config, states[11], 1, job);
    states, steps := Grow(config, states, steps, BySubmit(SubmitSpawn(0, 1)), SpawnedFor(states[11], 1, job));
    states, steps := BeginsOnce(config, states, steps, 1, job);
  }

  lemma OverlapFails(config: Config, job: Job) returns (states: seq<State>, steps: seq<Step>)
    requires config.queueLimit > 0 && job == NewJob(config, "job", "spec")
    ensures IsRun(config, states, steps) && AfterRecovery(states, steps) && |steps| == 11
    ensures Executes(states[6], steps[6], "job")
    ensures states[11] == READY.(db := map["job" := job], submitted := [job])
  {
    states, steps := OverlappingSubmissions(config);
    assert AfterRecovery(states, steps);
    states, steps := Fails(config, states, steps, job.(status := Running));
  }

  /** A submission before the recovery scan: the scan finds its record still queued and spawns it once more. */
  lemma ExecutedTwiceByRecovery(config: Config) returns (states: seq<State>, steps: seq<Step>)
    requires config.queueLimit > 0
    ensures IsRun(config, states, steps) && NoOverlap(states, steps) && |steps| == 12
    ensures Executes(states[5], steps[5], "job") && Executes(states[11], steps[11], "job")
  {
    var job := NewJob(config, "job", "spec");
    states, steps := SubmittedBeforeScan(config, job);
    var active := job.(status := Running);
    states, steps := Fails(config, states, steps, active);
    GoesRecover(config, states[9], active);
    var spawned := states[9].(recovering := map[], tasks := map[1 := Task("job", Spawned)], handles := map["job" := 1]);
    states, steps := Grow(config, states, steps, ByAgent(RecoverQueued("job", 1)), spawned);
    states, steps := BeginsOnce(config, states, steps, 1, active);
  }

  lemma GoesRecover(config: Config, s: State, active: Job)
    requires config.queueLimit > 0 && s.recovering == map["job" := active.(status := Queued)]
    requires s.tasks == map[] && s.handles == map[] && s.aborting == {}
    ensures Goes(config, s, ByAgent(RecoverQueued("job", 1)),
                 s.(recovering := map[], tasks := map[1 := Task("job", Spawned)], handles := map["job" := 1]))
  {
    assert s.recovering - {"job"} == map[];
  }

  lemma SubmittedBeforeScan(config: Config, job: Job) returns (states: seq<State>, steps: seq<Step>)
    requires config.queueLimit > 0 && job == NewJob(config, "job", "spec")
    ensures IsRun(config, states, steps) && NoOverlap(states, steps) && |steps| == 6
    ensures Executes(states[5], steps[5], "job")
    ensures var active := job.(status := Running);
            states[6] == READY.(db := map["job" := active], recovering := map["job" := job],
                                tasks := map[0 := Task("job", Executing(active))], handles := map["job" := 0])
  {
    states, steps := ScannedWhileQueued(config, job);
    GoesSpawn(config, states[3], 0, job);
    states, steps := Grow(config, states, steps, BySubmit(SubmitSpawn(0, 0)), SpawnedFor(states[3], 0, job));
    states, steps := BeginsOnce(config, states, steps, 0, job);
  }

  lemma ScannedWhileQueued(config: Config, job: Job) returns (states: seq<State>, steps: seq<Step>)
    requires job == NewJob(config, "job", "spec")
    ensures IsRun(config, states, steps) && NoOverlap(states, steps) && |steps| == 3
    ensures states[3] == READY.(db := map["job" := job], recovering := map["job" := job], submitted := [job])
  {
    var s1, s2 := EMPTY.(checked := [job]), EMPTY.(db := map["job" := job], submitted := [job]);
    var s3 := READY.(db := map["job" := job], recovering := map["job" := job], submitted := [job]);
    var lookup := BySubmit(SubmitLookup("job", "spec"));
    Extend(config, [EMPTY], [], lookup, s1);
    Extend(config, [EMPTY] + [s1], [] + [lookup], BySubmit(SubmitInsert(0)), s2);
    states, steps := [EMPTY] + [s1] + [s2], [] + [lookup] + [BySubmit(SubmitInsert(0))];
    Extend(config, states, steps, ByAgent(RecoverScan), s3);
    states, steps := states + [s3], steps + [ByAgent(RecoverScan)];
  }
}
