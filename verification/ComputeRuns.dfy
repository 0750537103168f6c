/** Whole runs of the compute-job protocol, from an empty agent through any interleaving of its steps. */
module ComputeRuns {
  import opened Common
  import opened ComputeJobs
  import opened GuestCids

  predicate Goes(config: Config, s: State, step: Step, later: State) {
    Enabled(s, step) && Apply(config, s, step) == later
  }

  ghost predicate IsRun(config: Config, states: seq<State>, steps: seq<Step>) {
    && |states| == |steps| + 1 && states[0] == EMPTY
    && forall i :: 0 <= i < |steps| ==> Goes(config, states[i], steps[i], states[i + 1])
  }

  // ---- What a step writes ----

  function WrittenByTask(config: Config, s: State, task: TaskId, act: TaskAction): Option<Job>
    requires TaskEnabled(s, task, act)
  {
    if Silent(act) then None else TaskEffect(config, s, task, act).written
  }

  function WrittenBySubmit(s: State, act: SubmitAction): Option<Job>
    requires SubmitEnabled(s, act)
  {
    if act.SubmitInsert? then Some(s.checked[act.k]) else None
  }

  function WrittenByCancel(s: State, act: CancelAction): Option<Job>
    requires CancelEnabled(s, act)
  {
    if act.CancelPersist? && act.ok then Some(s.lock.job) else None
  }

  function WrittenByAgent(s: State, act: AgentAction): Option<Job>
    requires AgentEnabled(s, act)
  {
    if act.WriteLands? && act.ok then Some(s.writes[act.k])
    else if act.RecoverInterrupted? && act.ok then Some(s.recovering[act.id].(status := Failed))
    else None
  }

  /** The record a step persists. */
  function Written(config: Config, s: State, step: Step): Option<Job>
    requires Enabled(s, step)
  {
    match step
    case ByTask(task, act) => WrittenByTask(config, s, task, act)
    case BySubmit(act) => WrittenBySubmit(s, act)
    case ByCancel(act) => WrittenByCancel(s, act)
    case ByAgent(act) => WrittenByAgent(s, act)
  }

  lemma TaskWrites(config: Config, s: State, task: TaskId, act: TaskAction)
    requires TaskEnabled(s, task, act)
    ensures ApplyTask(config, s, task, act).db == After(s.db, WrittenByTask(config, s, task, act))
  {
  }

  lemma SubmitWrites(config: Config, s: State, act: SubmitAction)
    requires SubmitEnabled(s, act)
    ensures ApplySubmit(config, s, act).db == After(s.db, WrittenBySubmit(s, act))
  {
  }

  lemma CancelWrites(s: State, act: CancelAction)
    requires CancelEnabled(s, act)
    ensures ApplyCancel(s, act).db == After(s.db, WrittenByCancel(s, act))
  {
  }

  lemma AgentWrites(config: Config, s: State, act: AgentAction)
    requires AgentEnabled(s, act)
    ensures ApplyAgent(config, s, act).db == After(s.db, WrittenByAgent(s, act))
  {
    if act.RecoverQueued? {
      assert Spawn(config, s.(recovering := s.recovering - {act.id}), act.id, act.task).0.db == s.db;
    }
  }

  /** The table changes only by persisting that record. */
  lemma StepWrites(config: Config, s: State, step: Step)
    requires Enabled(s, step)
    ensures Apply(config, s, step).db == After(s.db, Written(config, s, step))
  {
    match step
    case ByTask(task, act) => TaskWrites(config, s, task, act);
    case BySubmit(act) => SubmitWrites(config, s, act);
    case ByCancel(act) => CancelWrites(s, act);
    case ByAgent(act) => AgentWrites(config, s, act);
  }

  /** In every run, whatever overlaps, a record stays and a terminal status is for good. */
  lemma TerminalForGood(config: Config, states: seq<State>, steps: seq<Step>, i: nat, j: nat, id: JobId)
    requires IsRun(config, states, steps) && i <= j <= |steps| && id in states[i].db
    ensures id in states[j].db
    ensures Terminal(states[i].db[id].status) ==> states[j].db[id].status == states[i].db[id].status
  {
    var dbs := Tables(states);
    forall k | 0 <= k < |dbs| - 1
      ensures Forward(BASE, dbs[k], dbs[k + 1])
    {
      assert Goes(config, states[k], steps[k], states[k + 1]);
      StepWrites(config, states[k], steps[k]);
    }
    TerminalChain(dbs, i, j, id);
  }

  lemma {:induction false} TerminalChain(dbs: seq<Jobs>, i: nat, j: nat, id: JobId)
    requires i <= j < |dbs| && id in dbs[i]
    requires forall k :: 0 <= k < |dbs| - 1 ==> Forward(BASE, dbs[k], dbs[k + 1])
    ensures id in dbs[j] && (Terminal(dbs[i][id].status) ==> dbs[j][id].status == dbs[i][id].status)
    decreases j
  {
    if i < j {
      TerminalChain(dbs, i, j - 1, id);
      assert Forward(BASE, dbs[j - 1], dbs[j - 1 + 1]);
    }
  }

  /** A step that persists a record keeps a stored receipt if and only if it is another job's record, or its status
      differs from the stored one, or it carries that receipt. */
  lemma ReceiptKeptIff(config: Config, states: seq<State>, steps: seq<Step>, i: nat, id: JobId)
    requires IsRun(config, states, steps) && i < |steps| && id in states[i].db && states[i].db[id].receipt.Some?
    ensures id in states[i + 1].db && Enabled(states[i], steps[i])
    ensures states[i + 1].db[id].receipt == states[i].db[id].receipt <==>
            match Written(config, states[i], steps[i])
            case None => true
            case Some(job) =>
              job.id != id || job.status != states[i].db[id].status || job.receipt == states[i].db[id].receipt
  {
    ReceiptsVerify(config, states, steps, i, id);
    assert Goes(config, states[i], steps[i], states[i + 1]);
    StepWrites(config, states[i], steps[i]);
  }

  // ---- The invariant over runs ----

  /** Every submission in the run inserts its record where the scope allows it. */
  ghost predicate RunOk(m: Scope, states: seq<State>, steps: seq<Step>) {
    |states| == |steps| + 1 && forall i :: 0 <= i < |steps| ==> StepOk(m, states[i], steps[i])
  }

  lemma {:induction false} RunInvariant(config: Config, m: Scope, states: seq<State>, steps: seq<Step>, i: nat)
    requires IsRun(config, states, steps) && RunOk(m, states, steps) && i <= |steps|
    ensures Inv(config, m, states[i])
  {
    if i > 0 {
      RunInvariant(config, m, states, steps, i - 1);
      assert Goes(config, states[i - 1], steps[i - 1], states[i]) && StepOk(m, states[i - 1], steps[i - 1]);
      StepKeeps(config, m, states[i - 1], steps[i - 1]);
    }
  }

  /** In every state of every run, every stored receipt names its job and that job's terminal status and passes
      verification, and every succeeded job has one. */
  lemma ReceiptsVerify(config: Config, states: seq<State>, steps: seq<Step>, i: nat, id: JobId)
    requires IsRun(config, states, steps) && i <= |steps|
    ensures id in states[i].db && states[i].db[id].receipt.Some? ==>
              var job := states[i].db[id];
              && Terminal(job.status) && VerifyReceipt(config, job)
              && job.receipt.value.unsigned.jobId == id && job.receipt.value.unsigned.status == job.status
    ensures id in states[i].db && states[i].db[id].status.Succeeded? ==> states[i].db[id].receipt.Some?
  {
    assert RunOk(BASE, states, steps);
    RunInvariant(config, BASE, states, steps, i);
  }

  lemma RunForward(config: Config, m: Scope, states: seq<State>, steps: seq<Step>, i: nat)
    requires IsRun(config, states, steps) && RunOk(m, states, steps) && i < |steps|
    ensures Forward(m, states[i].db, states[i + 1].db)
  {
    RunInvariant(config, m, states, steps, i);
    assert Goes(config, states[i], steps[i], states[i + 1]) && StepOk(m, states[i], steps[i]);
    StepKeeps(config, m, states[i], steps[i]);
  }

  // ---- Submissions that do not overlap ----

  /** No submission of an id starts while another one of that id is between its lookup and its insert. */
  predicate Alone(s: State, step: Step) {
    match step
    case BySubmit(SubmitLookup(id, _)) => forall k :: 0 <= k < |s.checked| ==> s.checked[k].id != id
    case _ => true
  }

  ghost predicate NoOverlap(states: seq<State>, steps: seq<Step>) {
    |states| == |steps| + 1 && forall i :: 0 <= i < |steps| ==> Alone(states[i], steps[i])
  }

  /** The submissions between lookup and insert are of different ids, none of which has a record. */
  predicate Fresh(db: Jobs, checked: seq<Job>) {
    && (forall k :: 0 <= k < |checked| ==> checked[k].id !in db)
    && (forall j, k :: 0 <= j < k < |checked| ==> checked[j].id != checked[k].id)
  }

  lemma FreshWithout(db: Jobs, checked: seq<Job>, k: nat)
    requires Fresh(db, checked) && k < |checked|
    ensures Fresh(db, Without(checked, k)) && Fresh(Persist(db, checked[k]), Without(checked, k))
  {
    var fewer := Without(checked, k);
    forall j | 0 <= j < |fewer|
      ensures fewer[j].id !in db && fewer[j].id != checked[k].id
    {
      assert fewer[j] == checked[if j < k then j else j + 1];
    }
  }

  /** Only submissions add records. */
  lemma OnlySubmitAdds(config: Config, m: Scope, s: State, step: Step)
    requires Inv(config, m, s) && Enabled(s, step) && !step.BySubmit?
    ensures Apply(config, s, step).db.Keys == s.db.Keys
  {
    StepWrites(config, s, step);
    match step
    case ByTask(task, act) => assert PhaseOk(config, m, s.db, s.tasks[task]);
    case ByCancel(act) =>
    case ByAgent(act) =>
  }

  lemma FreshBySubmit(config: Config, s: State, act: SubmitAction)
    requires SubmitEnabled(s, act) && Alone(s, BySubmit(act)) && Fresh(s.db, s.checked)
    ensures Fresh(ApplySubmit(config, s, act).db, ApplySubmit(config, s, act).checked)
  {
    match act
    case SubmitRefuse(k) => FreshWithout(s.db, s.checked, k);
    case SubmitInsert(k) => FreshWithout(s.db, s.checked, k);
    case _ =>
  }

  lemma CheckedByTask(config: Config, s: State, task: TaskId, act: TaskAction)
    requires TaskEnabled(s, task, act)
    ensures ApplyTask(config, s, task, act).checked == s.checked
  {
  }

  lemma CheckedByAgent(config: Config, s: State, act: AgentAction)
    requires AgentEnabled(s, act)
    ensures ApplyAgent(config, s, act).checked == if act.Restart? then [] else s.checked
  {
    if act.RecoverQueued? {
      assert Spawn(config, s.(recovering := s.recovering - {act.id}), act.id, act.task).0.checked == s.checked;
    }
  }

  lemma FreshKept(config: Config, m: Scope, s: State, step: Step)
    requires Inv(config, m, s) && Enabled(s, step) && Alone(s, step) && Fresh(s.db, s.checked)
    ensures Fresh(Apply(config, s, step).db, Apply(config, s, step).checked)
  {
    if step.BySubmit? {
      FreshBySubmit(config, s, step.submit);
    } else {
      OnlySubmitAdds(config, m, s, step);
      match step
      case ByTask(task, act) => CheckedByTask(config, s, task, act);
      case ByCancel(act) =>
      case ByAgent(act) => CheckedByAgent(config, s, act);
    }
  }

  lemma {:induction false} FreshInRuns(config: Config, states: seq<State>, steps: seq<Step>, i: nat)
    requires IsRun(config, states, steps) && NoOverlap(states, steps) && i <= |steps|
    ensures Fresh(states[i].db, states[i].checked)
  {
    if i > 0 {
      FreshInRuns(config, states, steps, i - 1);
      assert RunOk(BASE, states, steps);
      RunInvariant(config, BASE, states, steps, i - 1);
      assert Goes(config, states[i - 1], steps[i - 1], states[i]) && Alone(states[i - 1], steps[i - 1]);
      FreshKept(config, BASE, states[i - 1], steps[i - 1]);
    }
  }

  lemma NoOverlapOk(config: Config, m: Scope, states: seq<State>, steps: seq<Step>)
    requires IsRun(config, states, steps) && NoOverlap(states, steps)
    ensures RunOk(m, states, steps)
  {
    forall i | 0 <= i < |steps|
      ensures StepOk(m, states[i], steps[i])
    {
      FreshInRuns(config, states, steps, i);
    }
  }

  predicate Reaches(a: Status, b: Status) { a == b || a.Queued? || (a.Running? && Terminal(b)) }

  lemma {:induction false} ForwardChain(dbs: seq<Jobs>, i: nat, j: nat, id: JobId)
    requires i <= j < |dbs| && id in dbs[i]
    requires forall k :: 0 <= k < |dbs| - 1 ==> Forward(FULL, dbs[k], dbs[k + 1])
    ensures id in dbs[j] && dbs[j][id].spec == dbs[i][id].spec && Reaches(dbs[i][id].status, dbs[j][id].status)
    decreases j
  {
    if i < j {
      ForwardChain(dbs, i, j - 1, id);
      assert Forward(FULL, dbs[j - 1], dbs[j - 1 + 1]);
    }
  }

  function Tables(states: seq<State>): seq<Jobs> {
    seq(|states|, i requires 0 <= i < |states| => states[i].db)
  }

  /** Over any stretch of a run without overlapping submissions a job keeps its specification and moves only forward;
      each single step makes only an allowed change. */
  lemma StatusesMoveForward(config: Config, states: seq<State>, steps: seq<Step>, i: nat, j: nat, id: JobId)
    requires IsRun(config, states, steps) && NoOverlap(states, steps) && i <= j <= |steps| && id in states[i].db
    ensures id in states[j].db && states[j].db[id].spec == states[i].db[id].spec
    ensures Reaches(states[i].db[id].status, states[j].db[id].status)
    ensures j == i + 1 ==> Allowed(states[i].db[id].status, states[j].db[id].status)
  {
    NoOverlapOk(config, FULL, states, steps);
    var dbs := Tables(states);
    forall k | 0 <= k < |dbs| - 1
      ensures Forward(FULL, dbs[k], dbs[k + 1])
    {
      RunForward(config, FULL, states, steps, k);
    }
    ForwardChain(dbs, i, j, id);
  }

  datatype SubmitReply = Existing(job: Job) | Conflict | Accepted

  function Reply(db: Jobs, id: JobId, spec: Spec): SubmitReply {
    if id !in db then Accepted else if db[id].spec == spec then Existing(db[id]) else Conflict
  }

  /** Once a job exists, resubmitting it returns its current record and changes nothing, and submitting another
      specification under its id is refused, however a run without overlapping submissions continues. */
  lemma SubmitIdempotent(
      config: Config, states: seq<State>, steps: seq<Step>, i: nat, j: nat, id: JobId, spec: Spec)
    requires IsRun(config, states, steps) && NoOverlap(states, steps) && i <= j <= |steps| && id in states[i].db
    ensures id in states[j].db
    ensures Reply(states[j].db, id, spec)
         == if spec == states[i].db[id].spec then Existing(states[j].db[id]) else Conflict
    ensures forall k :: 0 <= k < |states[j].checked| ==> states[j].checked[k].id != id
    ensures !Enabled(states[j], BySubmit(SubmitLookup(id, spec)))
  {
    StatusesMoveForward(config, states, steps, i, j, id);
    FreshInRuns(config, states, steps, j);
  }

  // ---- Submissions that do overlap ----

  /** In any run, inserting a submitted record is a step forward if and only if there is no record, or it is
      terminal, or it is still queued with the same specification. */
  lemma InsertForwardIff(config: Config, states: seq<State>, steps: seq<Step>, i: nat, k: nat)
    requires IsRun(config, states, steps) && i <= |steps| && k < |states[i].checked|
    ensures var db, job := states[i].db, states[i].checked[k];
            Forward(FULL, db, ApplySubmit(config, states[i], SubmitInsert(k)).db)
            <==> (job.id in db ==>
                    || Terminal(db[job.id].status)
                    || (db[job.id].status == Queued && db[job.id].spec == job.spec))
  {
    assert RunOk(BASE, states, steps);
    RunInvariant(config, BASE, states, steps, i);
    var db, job := states[i].db, states[i].checked[k];
    assert job == NewJob(config, job.id, job.spec);
    if job.id in db && !Terminal(db[job.id].status) {
      assert Persist(db, job)[job.id] == job;
    }
  }

  const STATUSES := Scope(true, false)

  /** Over any run: every step changes statuses only as allowed, if and only if no submission inserts its record over a
      running one. */
  lemma StatusesForwardIff(config: Config, states: seq<State>, steps: seq<Step>)
    requires IsRun(config, states, steps)
    ensures (forall i :: 0 <= i < |steps| ==> Forward(STATUSES, states[i].db, states[i + 1].db))
            <==> RunOk(STATUSES, states, steps)
  {
    if RunOk(STATUSES, states, steps) {
      forall i | 0 <= i < |steps|
        ensures Forward(STATUSES, states[i].db, states[i + 1].db)
      {
        RunForward(config, STATUSES, states, steps, i);
      }
    } else {
      var i :| 0 <= i < |steps| && !StepOk(STATUSES, states[i], steps[i]);
      OverRunning(config, states, steps, i);
    }
  }

  lemma OverRunning(config: Config, states: seq<State>, steps: seq<Step>, i: nat)
    requires IsRun(config, states, steps) && i < |steps| && !StepOk(STATUSES, states[i], steps[i])
    ensures !Forward(STATUSES, states[i].db, states[i + 1].db)
  {
    assert RunOk(BASE, states, steps);
    RunInvariant(config, BASE, states, steps, i);
    assert Goes(config, states[i], steps[i], states[i + 1]);
    var job := states[i].checked[steps[i].submit.k];
    assert job == NewJob(config, job.id, job.spec);
    assert states[i + 1].db[job.id] == job;
  }

  lemma Extend(config: Config, states: seq<State>, steps: seq<Step>, step: Step, later: State)
    requires IsRun(config, states, steps) && Goes(config, states[|steps|], step, later)
    ensures IsRun(config, states + [later], steps + [step])
    ensures NoOverlap(states, steps) && Alone(states[|steps|], step) ==> NoOverlap(states + [later], steps + [step])
  {
    var states', steps' := states + [later], steps + [step];
    forall i | 0 <= i < |steps'|
      ensures Goes(config, states'[i], steps'[i], states'[i + 1])
    {
      assert i < |steps| ==> Goes(config, states[i], steps[i], states[i + 1]);
    }
  }

  /** The only job waits for its only task. */
  predicate OnlyTask(s: State, task: TaskId, job: Job) {
    && s.tasks == map[task := Task(job.id, Spawned)] && s.db == map[job.id := job] && s.lock.Free? && s.guests == map[]
    && !Terminal(job.status)
  }

  function Started(s: State, task: TaskId, job: Job): State {
    s.(tasks := map[task := Task(job.id, Starting(job.(status := Running)))], lock := HeldByTask(task))
  }

  function Began(s: State, task: TaskId, job: Job): State {
    var active := job.(status := Running);
    s.(tasks := map[task := Task(job.id, Executing(active))], db := map[job.id := active])
  }

  lemma GoesStart(config: Config, s: State, task: TaskId, job: Job)
    requires OnlyTask(s, task, job)
    ensures Goes(config, s, ByTask(task, StartLoad), Started(s, task, job))
  {
    assert Release(s.guests, task) == map[];
  }

  lemma GoesRunning(config: Config, s: State, task: TaskId, job: Job)
    requires OnlyTask(s, task, job)
    ensures Goes(config, Started(s, task, job), ByTask(task, StartPersist(true)), Began(s, task, job))
  {
  }

  /** The task begins its job. */
  lemma Begins(config: Config, states: seq<State>, steps: seq<Step>, task: TaskId, job: Job)
      returns (states': seq<State>, steps': seq<Step>)
    requires IsRun(config, states, steps) && OnlyTask(states[|steps|], task, job)
    ensures IsRun(config, states', steps') && (NoOverlap(states, steps) ==> NoOverlap(states', steps'))
    ensures steps' == steps + [ByTask(task, StartLoad), ByTask(task, StartPersist(true))]
    ensures states' == states + [Started(states[|steps|], task, job), Began(states[|steps|], task, job)]
  {
    var s := states[|steps|];
    var start, persist := ByTask(task, StartLoad), ByTask(task, StartPersist(true));
    GoesStart(config, s, task, job);
    GoesRunning(config, s, task, job);
    Extend(config, states, steps, start, Started(s, task, job));
    Extend(config, states + [Started(s, task, job)], steps + [start], persist, Began(s, task, job));
    states' := states + [Started(s, task, job)] + [Began(s, task, job)];
    steps' := steps + [start] + [persist];
  }

  /** An agent that has scanned its empty table. */
  const READY := EMPTY.(booting := false)

  /** The task that an idle agent spawns for a submitted job. */
  function SpawnedFor(s: State, task: TaskId, job: Job): State {
    s.(submitted := [], tasks := map[task := Task(job.id, Spawned)], handles := map[job.id := task])
  }

  lemma GoesSpawn(config: Config, s: State, task: TaskId, job: Job)
    requires config.queueLimit > 0 && s.submitted == [job] && s.tasks == map[] && s.handles == map[] && s.aborting == {}
    ensures Goes(config, s, BySubmit(SubmitSpawn(0, task)), SpawnedFor(s, task, job))
  {
    assert Without(s.submitted, 0) == [];
  }

  /** Two submissions have found no record, and the first one has inserted its own. */
  lemma TwoLookups(config: Config, job: Job) returns (states: seq<State>, steps: seq<Step>)
    requires job == NewJob(config, "job", "spec")
    ensures IsRun(config, states, steps)
    ensures var lookup := BySubmit(SubmitLookup("job", "spec"));
            && steps == [ByAgent(RecoverScan), lookup, lookup, BySubmit(SubmitInsert(0))]
            && states[1] == READY && states[2] == READY.(checked := [job])
    ensures states[4] == READY.(db := map["job" := job], checked := [job], submitted := [job])
  {
    var lookup, insert, scan := BySubmit(SubmitLookup("job", "spec")), BySubmit(SubmitInsert(0)), ByAgent(RecoverScan);
    var s2, s3 := READY.(checked := [job]), READY.(checked := [job, job]);
    var s4 := READY.(db := map["job" := job], checked := [job], submitted := [job]);
    Extend(config, [EMPTY], [], scan, READY);
    Extend(config, [EMPTY] + [READY], [] + [scan], lookup, s2);
    states, steps := [EMPTY] + [READY] + [s2], [] + [scan] + [lookup];
    Extend(config, states, steps, lookup, s3);
    states, steps := states + [s3], steps + [lookup];
    Extend(config, states, steps, insert, s4);
    states, steps := states + [s4], steps + [insert];
  }

  lemma FirstSubmission(config: Config, job: Job) returns (states: seq<State>, steps: seq<Step>)
    requires config.queueLimit > 0 && job == NewJob(config, "job", "spec")
    ensures IsRun(config, states, steps)
    ensures var lookup := BySubmit(SubmitLookup("job", "spec"));
            && steps == [ByAgent(RecoverScan), lookup, lookup, BySubmit(SubmitInsert(0)), BySubmit(SubmitSpawn(0, 0))]
            && states[1] == READY && states[2] == READY.(checked := [job])
    ensures states[5] == READY.(db := map["job" := job], checked := [job],
                                tasks := map[0 := Task("job", Spawned)], handles := map["job" := 0])
  {
    states, steps := TwoLookups(config, job);
    GoesSpawn(config, states[4], 0, job);
    Extend(config, states, steps, BySubmit(SubmitSpawn(0, 0)), SpawnedFor(states[4], 0, job));
    states, steps := states + [SpawnedFor(states[4], 0, job)], steps + [BySubmit(SubmitSpawn(0, 0))];
  }

  lemma GoesInsert(config: Config, s: State, job: Job)
    requires s.checked == [job] && s.submitted == [] && s.db == map[job.id := job.(status := Running)]
    ensures Goes(config, s, BySubmit(SubmitInsert(0)), s.(db := map[job.id := job], checked := [], submitted := [job]))
  {
  }

  function Overlap(): seq<Step> {
    var lookup := BySubmit(SubmitLookup("job", "spec"));
    [ByAgent(RecoverScan), lookup, lookup, BySubmit(SubmitInsert(0)), BySubmit(SubmitSpawn(0, 0)),
     ByTask(0, StartLoad), ByTask(0, StartPersist(true)), BySubmit(SubmitInsert(0))]
  }

  /** The first submission's job runs while the second one has yet to insert its own. */
  lemma FirstRuns(config: Config, job: Job) returns (states: seq<State>, steps: seq<Step>)
    requires config.queueLimit > 0 && job == NewJob(config, "job", "spec")
    ensures IsRun(config, states, steps) && steps == Overlap()[..7] && states[1] == READY && !states[2].booting
    ensures var active := job.(status := Running);
            && states[6].tasks == map[0 := Task("job", Starting(active))]
            && states[7] == READY.(db := map["job" := active], checked := [job], handles := map["job" := 0],
                                   tasks := map[0 := Task("job", Executing(active))])
  {
    states, steps := FirstSubmission(config, job);
    states, steps := Begins(config, states, steps, 0, job);
  }

  /** Two overlapping submissions of one id can put a running job back to queued. */
  lemma OverlappingSubmissions(config: Config) returns (states: seq<State>, steps: seq<Step>)
    requires config.queueLimit > 0
    ensures IsRun(config, states, steps) && steps == Overlap()
    ensures states[7].db.Keys == states[8].db.Keys == {"job"}
    ensures states[7].db["job"].status == Running && states[8].db["job"].status == Queued
    ensures states[1] == READY && !states[2].booting
    ensures var job := NewJob(config, "job", "spec");
            && states[6].tasks == map[0 := Task("job", Starting(job.(status := Running)))]
            && states[8] == READY.(db := map["job" := job], submitted := [job], handles := map["job" := 0],
                                   tasks := map[0 := Task("job", Executing(job.(status := Running)))])
  {
    var job := NewJob(config, "job", "spec");
    states, steps := FirstRuns(config, job);
    var s8 := states[7].(db := map["job" := job], checked := [], submitted := [job]);
    GoesInsert(config, states[7], job);
    Extend(config, states, steps, BySubmit(SubmitInsert(0)), s8);
    states, steps := states + [s8], steps + [BySubmit(SubmitInsert(0))];
  }

  // ---- A receipt that is lost ----

  /** A job submitted alone and executing. */
  function Executed(job: Job): State {
    EMPTY.(db := map["job" := job], tasks := map[0 := Task("job", Executing(job))], handles := map["job" := 0])
  }

  lemma OneSpawn(config: Config, job: Job) returns (states: seq<State>, steps: seq<Step>)
    requires config.queueLimit > 0 && job == NewJob(config, "job", "spec")
    ensures IsRun(config, states, steps) && NoOverlap(states, steps) && |steps| == 3
    ensures states[3] == EMPTY.(db := map["job" := job],
                                tasks := map[0 := Task("job", Spawned)], handles := map["job" := 0])
  {
    var lookup, insert := BySubmit(SubmitLookup("job", "spec")), BySubmit(SubmitInsert(0));
    var spawn := BySubmit(SubmitSpawn(0, 0));
    var s1, s2 := EMPTY.(checked := [job]), EMPTY.(db := map["job" := job], submitted := [job]);
    var s3 := s2.(submitted := [], tasks := map[0 := Task("job", Spawned)], handles := map["job" := 0]);
    Extend(config, [EMPTY], [], lookup, s1);
    Extend(config, [EMPTY] + [s1], [] + [lookup], insert, s2);
    states, steps := [EMPTY] + [s1] + [s2], [] + [lookup] + [insert];
    Extend(config, states, steps, spawn, s3);
    states, steps := states + [s3], steps + [spawn];
  }

  lemma OneSubmission(config: Config, job: Job) returns (states: seq<State>, steps: seq<Step>)
    requires config.queueLimit > 0 && job == NewJob(config, "job", "spec")
    ensures IsRun(config, states, steps) && NoOverlap(states, steps)
    ensures |steps| == 5 && states[5] == Executed(job.(status := Running))
  {
    states, steps := OneSpawn(config, job);
    states, steps := Begins(config, states, steps, 0, job);
  }

  /** The running job is canceled while its guest stream is open, and the stream has loaded the canceled record. */
  lemma CancelAndLoad(config: Config, active: Job, states: seq<State>, steps: seq<Step>)
      returns (states': seq<State>, steps': seq<Step>)
    requires IsRun(config, states, steps) && NoOverlap(states, steps) && |steps| == 5 && states[5] == Executed(active)
    requires active.id == "job" && active.status == Running
    ensures var canceled := active.(status := Canceled);
            && IsRun(config, states', steps') && NoOverlap(states', steps') && |steps'| == 10
            && states'[10] == Executed(active).(
                 db := map["job" := canceled], handles := map[], aborting := {0}, streams := {"job"},
                 writes := [canceled])
  {
    var canceled := active.(status := Canceled);
    var s6 := Executed(active).(streams := {"job"});
    var s7 := s6.(lock := CancelRequested(active));
    var s8 := s6.(handles := map[], aborting := {0}, lock := CancelWriting(canceled));
    var s9 := s8.(db := map["job" := canceled], lock := Free);
    var s10 := s9.(writes := [canceled]);
    Extend(config, states, steps, ByTask(0, OpenStream), s6);
    states', steps' := states + [s6], steps + [ByTask(0, OpenStream)];
    Extend(config, states', steps', ByCancel(CancelLoad("job")), s7);
    states', steps' := states' + [s7], steps' + [ByCancel(CancelLoad("job"))];
    Extend(config, states', steps', ByCancel(CancelKill(true)), s8);
    states', steps' := states' + [s8], steps' + [ByCancel(CancelKill(true))];
    Extend(config, states', steps', ByCancel(CancelPersist(true)), s9);
    states', steps' := states' + [s9], steps' + [ByCancel(CancelPersist(true))];
    Extend(config, states', steps', ByAgent(AppendLoad("job")), s10);
    states', steps' := states' + [s10], steps' + [ByAgent(AppendLoad("job"))];
  }

  /** A guest that finishes in spite of its cancellation stores a receipt; an event that was loaded before that and is
      written after it takes the receipt away again. No submissions overlap. */
  lemma ReceiptLost(config: Config) returns (states: seq<State>, steps: seq<Step>)
    requires config.queueLimit > 0
    ensures IsRun(config, states, steps) && NoOverlap(states, steps) && |steps| == 13
    ensures states[12].db.Keys == states[13].db.Keys == {"job"}
    ensures states[12].db["job"].status == states[13].db["job"].status == Canceled
    ensures states[12].db["job"].receipt.Some? && states[13].db["job"].receipt.None?
  {
    var job := NewJob(config, "job", "spec");
    var active, canceled := job.(status := Running), job.(status := Canceled);
    states, steps := OneSubmission(config, job);
    states, steps := CancelAndLoad(config, active, states, steps);
    var s10 := states[10];
    var final := Final(config, s10.db, active, 0);
    var s11 := s10.(tasks := map[0 := Task("job", Finishing(final))], lock := HeldByTask(0));
    var s12 := s10.(tasks := map[0 := Task("job", Done)], db := map["job" := final]);
    var s13 := s12.(db := map["job" := canceled], writes := []);
    Extend(config, states, steps, ByTask(0, FinishLoad(0)), s11);
    states, steps := states + [s11], steps + [ByTask(0, FinishLoad(0))];
    Extend(config, states, steps, ByTask(0, FinishPersist(true)), s12);
    states, steps := states + [s12], steps + [ByTask(0, FinishPersist(true))];
    Extend(config, states, steps, ByAgent(WriteLands(0, true)), s13);
    states, steps := states + [s13], steps + [ByAgent(WriteLands(0, true))];
  }

  // ---- Canceled jobs ----

  /** A task that has passed its start check and may run the guest. */
  predicate BegunPhase(phase: Phase) { phase.Starting? || phase.Executing? || phase.Finishing? }

  ghost predicate Begun(tasks: map<TaskId, Task>, id: JobId) {
    exists t :: t in tasks && tasks[t].id == id && BegunPhase(tasks[t].phase)
  }

  predicate IsCanceled(s: State, id: JobId) { id in s.db && s.db[id].status == Canceled }

  predicate Moved(tasks: map<TaskId, Task>, task: TaskId, later: map<TaskId, Task>)
    requires task in tasks
  {
    task in later && later == tasks[task := Task(tasks[task].id, later[task].phase)]
  }

  lemma GotoMoved(s: State, task: TaskId, phase: Phase)
    requires task in s.tasks
    ensures Moved(s.tasks, task, Goto(s, task, phase).tasks) && Goto(s, task, phase).tasks[task].phase == phase
  {
  }

  /** The table of tasks and the guest ids after one of them has changed its phase. */
  predicate Going(s: State, task: TaskId, phase: Phase, later: State)
    requires task in s.tasks
  {
    later.tasks == Goto(s, task, phase).tasks && later.guests == Goto(s, task, phase).guests
  }

  lemma SilentMoves(config: Config, s: State, task: TaskId, act: TaskAction)
    requires TaskEnabled(s, task, act) && Silent(act)
    ensures var later := ApplyTask(config, s, task, act);
            if act.Leave? || act.AbortLands? then
              later.tasks == s.tasks - {task} && later.guests == Release(s.guests, task)
            else
              || Going(s, task, Erring, later)
              || (later.tasks == s.tasks && (!act.Allocate? ==> later.guests == s.guests))
  {
  }

  lemma LoudMoves(config: Config, s: State, task: TaskId, act: TaskAction) returns (phase: Phase)
    requires TaskEnabled(s, task, act) && !Silent(act)
    ensures Going(s, task, phase, ApplyTask(config, s, task, act))
  {
    phase := TaskEffect(config, s, task, act).phase;
  }

  /** A step of a task removes it from the table or changes its phase, and leaves the other tasks alone. */
  lemma TaskTable(config: Config, s: State, task: TaskId, act: TaskAction)
    requires TaskEnabled(s, task, act)
    ensures var later := ApplyTask(config, s, task, act).tasks;
            if act.Leave? || act.AbortLands? then later == s.tasks - {task}
            else later == s.tasks || Moved(s.tasks, task, later)
  {
    if Silent(act) {
      SilentMoves(config, s, task, act);
      GotoMoved(s, task, Erring);
    } else {
      var phase := LoudMoves(config, s, task, act);
      GotoMoved(s, task, phase);
    }
  }

  /** A task begins a job only past the start check, and never waits again once it has begun. */
  predicate PhaseStep(s: State, task: TaskId, act: TaskAction, after: Phase)
    requires task in s.tasks
  {
    var before := s.tasks[task].phase;
    && (BegunPhase(after) && !BegunPhase(before) ==> act.StartLoad? && !IsCanceled(s, s.tasks[task].id))
    && (after.Spawned? || after.Starting? ==> (before.Spawned? || before.Starting?) && !act.StartPersist?)
  }

  lemma EffectPhase(config: Config, s: State, task: TaskId, act: TaskAction)
    requires TaskEnabled(s, task, act) && !Silent(act)
    ensures PhaseStep(s, task, act, TaskEffect(config, s, task, act).phase)
  {
  }

  lemma TaskPhase(config: Config, s: State, task: TaskId, act: TaskAction)
    requires TaskEnabled(s, task, act) && task in ApplyTask(config, s, task, act).tasks
    requires !act.Leave? && !act.AbortLands?
    ensures PhaseStep(s, task, act, ApplyTask(config, s, task, act).tasks[task].phase)
  {
    if Silent(act) {
      SilentMoves(config, s, task, act);
    } else {
      EffectPhase(config, s, task, act);
    }
  }

  lemma UnbegunByTask(config: Config, s: State, task: TaskId, act: TaskAction, id: JobId)
    requires TaskEnabled(s, task, act) && IsCanceled(s, id) && !Begun(s.tasks, id)
    ensures !Begun(ApplyTask(config, s, task, act).tasks, id)
  {
    TaskTable(config, s, task, act);
    if !act.Leave? && !act.AbortLands? {
      TaskPhase(config, s, task, act);
    }
  }

  lemma UnbegunBySpawn(config: Config, s: State, spawned: JobId, task: TaskId, id: JobId)
    requires !Begun(s.tasks, id)
    ensures !Begun(Spawn(config, s, spawned, task).0.tasks, id)
  {
  }

  lemma UnbegunBySubmit(config: Config, s: State, act: SubmitAction, id: JobId)
    requires SubmitEnabled(s, act) && !Begun(s.tasks, id)
    ensures !Begun(ApplySubmit(config, s, act).tasks, id)
  {
    if act.SubmitSpawn? {
      UnbegunBySpawn(config, s.(submitted := Without(s.submitted, act.k)), s.submitted[act.k].id, act.task, id);
    } else {
      assert ApplySubmit(config, s, act).tasks == s.tasks;
    }
  }

  lemma UnbegunByAgent(config: Config, s: State, act: AgentAction, id: JobId)
    requires AgentEnabled(s, act) && !Begun(s.tasks, id)
    ensures !Begun(ApplyAgent(config, s, act).tasks, id)
  {
    if act.RecoverQueued? {
      UnbegunBySpawn(config, s.(recovering := s.recovering - {act.id}), act.id, act.task, id);
    } else {
      assert ApplyAgent(config, s, act).tasks == s.tasks || ApplyAgent(config, s, act).tasks == map[];
    }
  }

  ghost predicate CanceledUnbegun(s: State, id: JobId) { IsCanceled(s, id) && !Begun(s.tasks, id) }

  lemma UnbegunKept(config: Config, s: State, step: Step, id: JobId)
    requires Enabled(s, step) && CanceledUnbegun(s, id)
    ensures !Begun(Apply(config, s, step).tasks, id)
  {
    match step
    case ByTask(task, act) => UnbegunByTask(config, s, task, act, id);
    case BySubmit(act) => UnbegunBySubmit(config, s, act, id);
    case ByCancel(act) => assert ApplyCancel(s, act).tasks == s.tasks;
    case ByAgent(act) => UnbegunByAgent(config, s, act, id);
  }

  lemma CanceledStaysUnbegun(config: Config, states: seq<State>, steps: seq<Step>, i: nat, id: JobId)
    requires IsRun(config, states, steps) && i < |steps| && CanceledUnbegun(states[i], id)
    ensures CanceledUnbegun(states[i + 1], id)
  {
    assert Goes(config, states[i], steps[i], states[i + 1]);
    UnbegunKept(config, states[i], steps[i], id);
    TerminalForGood(config, states, steps, i, i + 1, id);
  }

  lemma {:induction false} UnbegunChain(states: seq<State>, i: nat, j: nat, id: JobId)
    requires i <= j < |states| && CanceledUnbegun(states[i], id)
    requires forall k :: 0 <= k < |states| - 1 && CanceledUnbegun(states[k], id) ==> CanceledUnbegun(states[k + 1], id)
    ensures CanceledUnbegun(states[j], id)
    decreases j
  {
    if i < j {
      UnbegunChain(states, i, j - 1, id);
      assert CanceledUnbegun(states[j - 1 + 1], id);
    }
  }

  /** A job that is canceled before any task has begun it is never begun afterwards, in any continuation of any run. */
  lemma CanceledNeverStarts(config: Config, states: seq<State>, steps: seq<Step>, i: nat, j: nat, id: JobId)
    requires IsRun(config, states, steps) && i <= j <= |steps|
    requires IsCanceled(states[i], id) && !Begun(states[i].tasks, id)
    ensures IsCanceled(states[j], id) && !Begun(states[j].tasks, id)
  {
    forall k | 0 <= k < |states| - 1 && CanceledUnbegun(states[k], id)
      ensures CanceledUnbegun(states[k + 1], id)
    {
      CanceledStaysUnbegun(config, states, steps, k, id);
    }
    UnbegunChain(states, i, j, id);
  }

  /** And no cancellation is stored while a task is between its start check and the write that says running. */
  lemma StartingIsNotCanceled(config: Config, states: seq<State>, steps: seq<Step>, i: nat, task: TaskId)
    requires IsRun(config, states, steps) && i <= |steps| && task in states[i].tasks
    ensures states[i].tasks[task].phase.Starting? ==>
              states[i].lock == HeldByTask(task) && !IsCanceled(states[i], states[i].tasks[task].id)
  {
    assert RunOk(BASE, states, steps);
    RunInvariant(config, BASE, states, steps, i);
  }

  // ---- Permits and guest ids ----

  /** Every task has a permit, every guest id is held by a task, and no task holds two. */
  predicate Seated(config: Config, tasks: map<TaskId, Task>, guests: map<nat, TaskId>) {
    && |tasks| <= config.queueLimit
    && (forall cid :: cid in guests ==> 3 <= cid <= 2_000_000_002 && guests[cid] in tasks)
    && (forall c, d :: c in guests && d in guests && guests[c] == guests[d] ==> c == d)
  }

  lemma SeatedRelease(config: Config, tasks: map<TaskId, Task>, guests: map<nat, TaskId>, task: TaskId)
    requires Seated(config, tasks, guests)
    ensures Seated(config, tasks, Release(guests, task)) && Seated(config, tasks - {task}, Release(guests, task))
  {
    assert (tasks - {task}).Keys == tasks.Keys - {task};
    assert |tasks - {task}| == |(tasks - {task}).Keys| && |tasks| == |tasks.Keys|;
    SubsetSize((tasks - {task}).Keys, tasks.Keys);
  }

  lemma SeatedGoto(config: Config, s: State, task: TaskId, phase: Phase)
    requires Seated(config, s.tasks, s.guests) && task in s.tasks
    ensures Seated(config, Goto(s, task, phase).tasks, Goto(s, task, phase).guests)
  {
    var later := Goto(s, task, phase).tasks;
    SeatedRelease(config, s.tasks, s.guests, task);
    assert later.Keys == s.tasks.Keys;
    assert |later| == |later.Keys| && |s.tasks| == |s.tasks.Keys|;
  }

  lemma SeatedAllocate(config: Config, s: State, task: TaskId, hash: nat)
    requires Seated(config, s.tasks, s.guests) && TaskEnabled(s, task, Allocate(hash))
    ensures var later := ApplyTask(config, s, task, Allocate(hash)); Seated(config, later.tasks, later.guests)
  {
    SeatedGoto(config, s, task, Erring);
  }

  lemma SeatedByTask(config: Config, s: State, task: TaskId, act: TaskAction)
    requires Seated(config, s.tasks, s.guests) && TaskEnabled(s, task, act)
    ensures var later := ApplyTask(config, s, task, act); Seated(config, later.tasks, later.guests)
  {
    if act.Allocate? {
      SeatedAllocate(config, s, task, act.hash);
    } else if Silent(act) {
      SilentMoves(config, s, task, act);
      SeatedRelease(config, s.tasks, s.guests, task);
      SeatedGoto(config, s, task, Erring);
    } else {
      var phase := LoudMoves(config, s, task, act);
      SeatedGoto(config, s, task, phase);
    }
  }

  lemma SeatedMore(config: Config, tasks: map<TaskId, Task>, guests: map<nat, TaskId>, task: TaskId, new_: Task)
    requires Seated(config, tasks, guests) && task !in tasks && |tasks| < config.queueLimit
    ensures Seated(config, tasks[task := new_], guests)
  {
    assert tasks[task := new_].Keys == tasks.Keys + {task};
    assert |tasks[task := new_]| == |tasks[task := new_].Keys| && |tasks| == |tasks.Keys|;
  }

  lemma SeatedBySpawn(config: Config, s: State, id: JobId, task: TaskId)
    requires Seated(config, s.tasks, s.guests) && task !in s.tasks
    ensures var later := Spawn(config, s, id, task).0; Seated(config, later.tasks, later.guests)
  {
    if |s.tasks| < config.queueLimit {
      SeatedMore(config, s.tasks, s.guests, task, Task(id, if id in s.handles then Discarded else Spawned));
    }
  }

  lemma SeatedBySubmit(config: Config, s: State, act: SubmitAction)
    requires Seated(config, s.tasks, s.guests) && SubmitEnabled(s, act)
    ensures var later := ApplySubmit(config, s, act); Seated(config, later.tasks, later.guests)
  {
    if act.SubmitSpawn? {
      SeatedBySpawn(config, s.(submitted := Without(s.submitted, act.k)), s.submitted[act.k].id, act.task);
    }
  }

  lemma SeatedByAgent(config: Config, s: State, act: AgentAction)
    requires Seated(config, s.tasks, s.guests) && AgentEnabled(s, act)
    ensures var later := ApplyAgent(config, s, act); Seated(config, later.tasks, later.guests)
  {
    if act.RecoverQueued? {
      SeatedBySpawn(config, s.(recovering := s.recovering - {act.id}), act.id, act.task);
    }
  }

  lemma SeatedByCancel(config: Config, s: State, act: CancelAction)
    requires Seated(config, s.tasks, s.guests) && CancelEnabled(s, act)
    ensures var later := ApplyCancel(s, act); Seated(config, later.tasks, later.guests)
  {
  }

  lemma SeatedKept(config: Config, s: State, step: Step)
    requires Seated(config, s.tasks, s.guests) && Enabled(s, step)
    ensures var later := Apply(config, s, step); Seated(config, later.tasks, later.guests)
  {
    match step
    case ByTask(task, act) => SeatedByTask(config, s, task, act);
    case BySubmit(act) => SeatedBySubmit(config, s, act);
    case ByCancel(act) => SeatedByCancel(config, s, act);
    case ByAgent(act) => SeatedByAgent(config, s, act);
  }

  /** In every state of every run there are at most as many tasks as queue permits, and every guest id is held by a task
      of its own. */
  lemma {:induction false} TasksWithinPermits(config: Config, states: seq<State>, steps: seq<Step>, i: nat)
    requires IsRun(config, states, steps) && i <= |steps|
    ensures Seated(config, states[i].tasks, states[i].guests)
  {
    if i > 0 {
      TasksWithinPermits(config, states, steps, i - 1);
      assert Goes(config, states[i - 1], steps[i - 1], states[i]);
      SeatedKept(config, states[i - 1], steps[i - 1]);
    }
  }

  lemma {:induction false} InjectiveFits(owners: map<nat, TaskId>, tasks: set<TaskId>)
    requires forall c :: c in owners ==> owners[c] in tasks
    requires forall c, d :: c in owners && d in owners && owners[c] == owners[d] ==> c == d
    ensures |owners| <= |tasks|
    decreases |owners|
  {
    if |owners| > 0 {
      var c :| c in owners;
      assert (owners - {c}).Keys == owners.Keys - {c};
      InjectiveFits(owners - {c}, tasks - {owners[c]});
    }
  }

  /** So no allocation of any run fails: its task keeps executing and holds an id that no other task holds. */
  lemma AllocationSucceedsInEveryRun(
      config: Config, states: seq<State>, steps: seq<Step>, i: nat, task: TaskId, hash: nat)
    requires IsRun(config, states, steps) && i < |steps| && steps[i] == ByTask(task, Allocate(hash))
    requires config.queueLimit < CID_RANGE
    ensures states[i + 1].tasks == states[i].tasks
    ensures exists cid: nat :: cid !in states[i].guests && states[i + 1].guests == states[i].guests[cid := task]
  {
    var s := states[i];
    TasksWithinPermits(config, states, steps, i);
    assert Goes(config, s, steps[i], states[i + 1]);
    InjectiveFits(s.guests, s.tasks.Keys);
    assert |s.guests| == |s.guests.Keys| && |s.tasks| == |s.tasks.Keys|;
    VacantProbeExists(s.guests.Keys, hash, config.queueLimit);
  }
}
