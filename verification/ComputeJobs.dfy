/** The compute-job protocol as a state machine. Every `load_job` and every `persist_job` is its own step (each is
    one database transaction), so any other actor may run between a load and the write that depends on it.
    Aborting a task only asks it to stop: it may take further steps until the abort lands. */
module ComputeJobs {
  import opened Common
  import opened GuestCids

  type JobId = string
  type Spec = string
  type TaskId = nat

  datatype Status = Queued | Running | Succeeded | Failed | TimedOut | Canceled

  predicate Terminal(s: Status) { s.Succeeded? || s.Failed? || s.TimedOut? || s.Canceled? }

  datatype Unsigned = Unsigned(jobId: JobId, status: Status, nodeId: string, exitCode: int)

  datatype Receipt = Receipt(unsigned: Unsigned, signature: string)

  datatype Job = Job(id: JobId, spec: Spec, status: Status, assignedNode: string, receipt: Option<Receipt>)

  type Jobs = map<JobId, Job>

  datatype Config = Config(nodeId: string, queueLimit: nat, sign: Unsigned -> string)

  /** What a spawned task is about to do. The states that carry a record still have to persist it. */
  datatype Phase =
    | Spawned                                // waiting for a permit
    | Starting(job: Job)                     // state lock held, record loaded and set to running
    | Executing(job: Job)                    // preparing or running the guest
    | Writing(job: Job, erring: bool)        // failure or timeout record to persist, no lock
    | Finishing(job: Job)                    // state lock held, final record with receipt to persist
    | Erring                                 // execution returned an error; the wrapper has not loaded yet
    | Wrapping(job: Job)                     // wrapper loaded the record and set it to failed
    | Done                                   // about to leave the table of tasks
    | Discarded                              // spawned for a job that already had a task; never runs

  datatype Task = Task(id: JobId, phase: Phase)

  /** The state lock; a cancellation keeps it over both of its phases. */
  datatype Lock =
    | Free
    | HeldByTask(task: TaskId)
    | CancelRequested(job: Job)              // running job: cancel sent to the guest, grace period
    | CancelWriting(job: Job)                // canceled record to persist

  datatype State = State(
    db: Jobs,
    tasks: map<TaskId, Task>,
    handles: map<JobId, TaskId>,
    aborting: set<TaskId>,
    lock: Lock,
    streams: set<JobId>,                     // jobs whose guest control stream is open
    writes: seq<Job>,                        // records loaded by lock-free writers and not yet persisted
    recovering: map<JobId, Job>,             // start-up scan, not yet handled
    unspawned: set<JobId>,                   // queued jobs the scan could not spawn, not yet loaded again
    checked: seq<Job>,                       // submissions that found no record, not yet inserted
    submitted: seq<Job>,                     // inserted, not yet spawned
    guests: map<nat, TaskId>,                // guest context ids and the tasks whose guards hold them
    booting: bool)

  const EMPTY := State(map[], map[], map[], {}, Free, {}, [], map[], {}, [], [], map[], true)

  datatype TaskAction =
    | StartError
    | StartLoad
    | StartPersist(ok: bool)
    | Allocate(hash: nat)
    | ExecError
    | ExecFail
    | ExecTimeout
    | WriteOwn(ok: bool)
    | FinishLoad(exitCode: int)
    | FinishPersist(ok: bool)
    | WrapLoad(ok: bool)
    | WrapPersist(ok: bool)
    | Leave
    | AbortLands
    | OpenStream

  datatype SubmitAction =
    | SubmitLookup(id: JobId, spec: Spec)
    | SubmitRefuse(k: nat)
    | SubmitInsert(k: nat)
    | SubmitSpawn(k: nat, task: TaskId)

  datatype CancelAction =
    | CancelLoad(id: JobId)
    | CancelGiveUp
    | CancelKill(firecracker: bool)
    | CancelPersist(ok: bool)

  datatype AgentAction =
    | AppendLoad(id: JobId)
    | WriteLands(k: nat, ok: bool)
    | Restart
    | RecoverScan
    | RecoverInterrupted(id: JobId, ok: bool)
    | RecoverQueued(id: JobId, task: TaskId)
    | RecoverLoad(id: JobId)

  datatype Step =
    | ByTask(task: TaskId, act: TaskAction)
    | BySubmit(submit: SubmitAction)
    | ByCancel(cancel: CancelAction)
    | ByAgent(agent: AgentAction)

  // ---- Operations on the record table ----

  predicate Ignored(db: Jobs, job: Job) {
    job.id in db && Terminal(db[job.id].status) && db[job.id].status != job.status
  }

  /** `persist_job`: a record that is already terminal keeps its status. */
  function Persist(db: Jobs, job: Job): Jobs { if Ignored(db, job) then db else db[job.id := job] }

  function PersistIf(db: Jobs, job: Job, ok: bool): Jobs { if ok then Persist(db, job) else db }

  function NewJob(config: Config, id: JobId, spec: Spec): Job { Job(id, spec, Queued, config.nodeId, None) }

  function Final(config: Config, db: Jobs, job: Job, exitCode: int): Job {
    var status := if job.id in db && db[job.id].status == Canceled then Canceled
                  else if exitCode == 0 then Succeeded else Failed;
    var unsigned := Unsigned(job.id, status, config.nodeId, exitCode);
    job.(status := status, receipt := Some(Receipt(unsigned, config.sign(unsigned))))
  }

  function Without<T>(s: seq<T>, k: nat): seq<T>
    requires k < |s|
  {
    s[..k] + s[k + 1..]
  }

  // ---- The steps ----

  predicate TaskEnabled(s: State, task: TaskId, act: TaskAction) {
    && task in s.tasks
    && var phase := s.tasks[task].phase;
       match act
       case StartError => phase.Spawned?
       case StartLoad => phase.Spawned? && s.lock.Free?
       case StartPersist(_) => phase.Starting?
       case Allocate(_) => phase.Executing? && task !in s.guests.Values
       case ExecError => phase.Executing?
       case ExecFail => phase.Executing?
       case ExecTimeout => phase.Executing?
       case WriteOwn(_) => phase.Writing?
       case FinishLoad(_) => phase.Executing? && s.lock.Free?
       case FinishPersist(_) => phase.Finishing?
       case WrapLoad(_) => phase.Erring?
       case WrapPersist(_) => phase.Wrapping?
       case Leave => phase.Done?
       case AbortLands => task in s.aborting && (phase.Spawned? || phase.Executing? || phase.Discarded?)
       case OpenStream => phase.Executing?
  }

  /** A task id that nothing refers to. */
  predicate Unused(s: State, task: TaskId) {
    task !in s.tasks && task !in s.aborting && task !in s.handles.Values
  }

  predicate SubmitEnabled(s: State, act: SubmitAction) {
    match act
    case SubmitLookup(id, _) => id !in s.db
    case SubmitRefuse(k) => k < |s.checked|
    case SubmitInsert(k) => k < |s.checked|
    case SubmitSpawn(k, task) => k < |s.submitted| && Unused(s, task)
  }

  predicate CancelEnabled(s: State, act: CancelAction) {
    match act
    case CancelLoad(id) => s.lock.Free? && id in s.db && !Terminal(s.db[id].status)
    case CancelGiveUp => s.lock.CancelRequested?
    case CancelKill(_) => s.lock.CancelRequested?
    case CancelPersist(_) => s.lock.CancelWriting?
  }

  predicate AgentEnabled(s: State, act: AgentAction) {
    match act
    case AppendLoad(id) => id in s.streams && id in s.db
    case WriteLands(k, _) => k < |s.writes|
    case Restart => true
    case RecoverScan => s.booting
    case RecoverInterrupted(id, _) => id in s.recovering && s.recovering[id].status == Running
    case RecoverQueued(id, task) => id in s.recovering && s.recovering[id].status == Queued && Unused(s, task)
    case RecoverLoad(id) => id in s.unspawned && id in s.db
  }

  predicate Enabled(s: State, step: Step) {
    match step
    case ByTask(task, act) => TaskEnabled(s, task, act)
    case BySubmit(act) => SubmitEnabled(s, act)
    case ByCancel(act) => CancelEnabled(s, act)
    case ByAgent(act) => AgentEnabled(s, act)
  }

  /** The phases inside `execute_firecracker_job`, which owns the guest id guard. */
  predicate InGuest(phase: Phase) { phase.Executing? || phase.Writing? || phase.Finishing? }

  function Release(guests: map<nat, TaskId>, task: TaskId): map<nat, TaskId> {
    map cid | cid in guests && guests[cid] != task :: guests[cid]
  }

  /** Leaving the guest's function drops its guard. */
  function Goto(s: State, task: TaskId, phase: Phase): State
    requires task in s.tasks
  {
    s.(tasks := s.tasks[task := s.tasks[task].(phase := phase)],
       guests := if InGuest(phase) then s.guests else Release(s.guests, task))
  }

  function Remove(s: State, task: TaskId): State {
    s.(tasks := s.tasks - {task}, guests := Release(s.guests, task))
  }

  /** `spawn_compute_job`: needs a queue permit. A second task for a job replaces the stored handle and is aborted. */
  function Spawn(config: Config, s: State, id: JobId, task: TaskId): (r: (State, bool))
    ensures r.0 == s.(tasks := r.0.tasks, handles := r.0.handles, aborting := r.0.aborting)
  {
    if |s.tasks| >= config.queueLimit then (s, false)
    else if id in s.handles then
      (s.(tasks := s.tasks[task := Task(id, Discarded)], handles := s.handles[id := task],
          aborting := s.aborting + {task}), false)
    else (s.(tasks := s.tasks[task := Task(id, Spawned)], handles := s.handles[id := task]), true)
  }

  function AbortHandle(s: State, id: JobId): (later: State)
    ensures later == s.(aborting := later.aborting, handles := later.handles)
  {
    if id in s.handles then s.(aborting := s.aborting + {s.handles[id]}, handles := s.handles - {id}) else s
  }

  /** The actions of a task that touch no record. */
  predicate Silent(act: TaskAction) {
    act.StartError? || act.Allocate? || act.ExecError? || act.Leave? || act.AbortLands? || act.OpenStream?
  }

  /** What an action persists, and the phase and lock it leads to. */
  datatype Effect = Effect(written: Option<Job>, phase: Phase, lock: Lock)

  function Writes(job: Job, ok: bool): Option<Job> { if ok then Some(job) else None }

  function After(db: Jobs, written: Option<Job>): Jobs { if written.Some? then Persist(db, written.value) else db }

  function TaskEffect(config: Config, s: State, task: TaskId, act: TaskAction): Effect
    requires TaskEnabled(s, task, act) && !Silent(act)
  {
    var Task(id, phase) := s.tasks[task];
    match act
    case StartLoad =>
      if id !in s.db then Effect(None, Erring, s.lock)
      else if s.db[id].status == Canceled then Effect(None, Done, s.lock)
      else Effect(None, Starting(s.db[id].(status := Running)), HeldByTask(task))
    case StartPersist(ok) => Effect(Writes(phase.job, ok), if ok then Executing(phase.job) else Erring, Free)
    case ExecFail => Effect(None, Writing(phase.job.(status := Failed), true), s.lock)
    case ExecTimeout => Effect(None, Writing(phase.job.(status := TimedOut), false), s.lock)
    case WriteOwn(ok) => Effect(Writes(phase.job, ok), if ok && !phase.erring then Done else Erring, s.lock)
    case FinishLoad(exitCode) => Effect(None, Finishing(Final(config, s.db, phase.job, exitCode)), HeldByTask(task))
    case FinishPersist(ok) => Effect(Writes(phase.job, ok), if ok then Done else Erring, Free)
    case WrapLoad(ok) =>
      if ok && id in s.db && s.db[id].status != Canceled then
        Effect(None, Wrapping(s.db[id].(status := Failed)), s.lock)
      else Effect(None, Done, s.lock)
    case WrapPersist(ok) => Effect(Writes(phase.job, ok), Done, s.lock)
  }

  function ApplySilent(config: Config, s: State, task: TaskId, act: TaskAction): State
    requires TaskEnabled(s, task, act) && Silent(act)
  {
    match act
    case StartError => Goto(s, task, Erring)
    case Allocate(hash) =>
      match FirstVacant(s.guests.Keys, hash, 0, config.queueLimit) {
        case Some(cid) => s.(guests := s.guests[cid := task])
        case None => Goto(s, task, Erring)
      }
    case ExecError => Goto(s, task, Erring)
    case Leave => Remove(s, task).(handles := s.handles - {s.tasks[task].id})
    case AbortLands => Remove(s, task)
    case OpenStream => s.(streams := s.streams + {s.tasks[task].phase.job.id})
  }

  function ApplyTask(config: Config, s: State, task: TaskId, act: TaskAction): State
    requires TaskEnabled(s, task, act)
  {
    if Silent(act) then ApplySilent(config, s, task, act)
    else
      var effect := TaskEffect(config, s, task, act);
      Goto(s.(db := After(s.db, effect.written)), task, effect.phase).(lock := effect.lock)
  }

  function ApplySubmit(config: Config, s: State, act: SubmitAction): State
    requires SubmitEnabled(s, act)
  {
    match act
    case SubmitLookup(id, spec) => s.(checked := s.checked + [NewJob(config, id, spec)])
    case SubmitRefuse(k) => s.(checked := Without(s.checked, k))
    case SubmitInsert(k) =>
      s.(db := Persist(s.db, s.checked[k]), checked := Without(s.checked, k),
         submitted := s.submitted + [s.checked[k]])
    case SubmitSpawn(k, task) =>
      var job := s.submitted[k];
      var (later, ok) := Spawn(config, s.(submitted := Without(s.submitted, k)), job.id, task);
      if ok then later else later.(writes := later.writes + [job.(status := Failed)])
  }

  /** A queued job is canceled at once; a running one is first asked to stop. */
  function LockFor(job: Job): Lock {
    if job.status == Queued then CancelWriting(job.(status := Canceled)) else CancelRequested(job)
  }

  function ApplyCancel(s: State, act: CancelAction): (later: State)
    requires CancelEnabled(s, act)
    ensures later.tasks == s.tasks && later.guests == s.guests && later.checked == s.checked
    ensures later.submitted == s.submitted && later.recovering == s.recovering && later.booting == s.booting
  {
    match act
    case CancelLoad(id) => s.(lock := LockFor(s.db[id]))
    case CancelGiveUp => s.(lock := Free)
    case CancelKill(firecracker) =>
      var job := s.lock.job;
      if firecracker && job.id in s.db && Terminal(s.db[job.id].status) then s.(lock := Free)
      else AbortHandle(s, job.id).(lock := CancelWriting(job.(status := Canceled)))
    case CancelPersist(ok) =>
      var written := s.(db := PersistIf(s.db, s.lock.job, ok));
      (if ok then AbortHandle(written, s.lock.job.id) else written).(lock := Free)
  }

  function ApplyAgent(config: Config, s: State, act: AgentAction): State
    requires AgentEnabled(s, act)
  {
    match act
    case AppendLoad(id) => s.(writes := s.writes + [s.db[id]])
    case WriteLands(k, ok) => s.(db := PersistIf(s.db, s.writes[k], ok), writes := Without(s.writes, k))
    case Restart => EMPTY.(db := s.db)
    case RecoverScan =>
      s.(recovering := map id | id in s.db && !Terminal(s.db[id].status) :: s.db[id], booting := false)
    case RecoverInterrupted(id, ok) =>
      s.(db := PersistIf(s.db, s.recovering[id].(status := Failed), ok), recovering := s.recovering - {id})
    case RecoverQueued(id, task) =>
      var (later, ok) := Spawn(config, s.(recovering := s.recovering - {id}), id, task);
      if ok then later else later.(unspawned := later.unspawned + {id})
    case RecoverLoad(id) => s.(writes := s.writes + [s.db[id].(status := Failed)], unspawned := s.unspawned - {id})
  }

  function Apply(config: Config, s: State, step: Step): State
    requires Enabled(s, step)
  {
    match step
    case ByTask(task, act) => ApplyTask(config, s, task, act)
    case BySubmit(act) => ApplySubmit(config, s, act)
    case ByCancel(act) => ApplyCancel(s, act)
    case ByAgent(act) => ApplyAgent(config, s, act)
  }

  // ---- What every run keeps ----

  /** `verify_compute_receipt`, with the node's signature check as a function of the unsigned receipt. */
  predicate VerifyReceipt(config: Config, job: Job) {
    && job.receipt.Some?
    && var r := job.receipt.value;
       && r.unsigned.jobId == job.id
       && r.unsigned.status == job.status
       && r.unsigned.nodeId == job.assignedNode
       && r.signature == config.sign(r.unsigned)
  }

  /** A stored receipt names its job and its job's status, and would pass verification elsewhere. Success comes with
      one. */
  predicate RecordOk(config: Config, job: Job) {
    && job.assignedNode == config.nodeId
    && (job.receipt.Some? ==> Terminal(job.status) && VerifyReceipt(config, job))
    && (job.status.Succeeded? ==> job.receipt.Some?)
  }

  predicate TableOk(config: Config, db: Jobs) {
    forall id :: id in db ==> db[id].id == id && RecordOk(config, db[id])
  }

  /** The status changes a single step may make. */
  predicate Allowed(a: Status, b: Status) {
    a == b || (a.Queued? && (b.Running? || b.Canceled? || b.Failed?)) || (a.Running? && Terminal(b))
  }

  /** What is tracked beyond receipts and terminal statuses: that statuses change only as allowed, and that
      specifications stay. Both depend on which records submissions overwrite. */
  datatype Scope = Scope(statuses: bool, specs: bool)

  const BASE := Scope(false, false)
  const FULL := Scope(true, true)

  /** Records are never removed and terminal ones keep their status; in scope, statuses change only as allowed and
      specifications stay. */
  predicate Forward(m: Scope, db: Jobs, later: Jobs) {
    forall id :: id in db ==> id in later && Succeeds(m, db[id], later[id])
  }

  predicate Succeeds(m: Scope, before: Job, after: Job) {
    && (Terminal(before.status) ==> after.status == before.status)
    && (m.statuses ==> Allowed(before.status, after.status))
    && (m.specs ==> after.spec == before.spec)
  }

  predicate Known(config: Config, m: Scope, db: Jobs, job: Job) {
    job.id in db && (m.specs ==> job.spec == db[job.id].spec) && job.assignedNode == config.nodeId
  }

  /** A copy loaded some time ago (whatever status its holder has since given it): its receipt, if any, is still
      the one of the stored terminal record. */
  predicate Carried(config: Config, m: Scope, db: Jobs, job: Job) {
    && Known(config, m, db, job)
    && (job.receipt.None? ||
        (Terminal(db[job.id].status) && RecordOk(config, job.(status := db[job.id].status))))
  }

  /** In scope, the record has left the queue. */
  predicate Left(m: Scope, db: Jobs, id: JobId)
    requires id in db
  {
    m.statuses ==> db[id].status != Queued
  }

  /** A record that may be persisted at any later time without breaking anything. */
  predicate Writable(config: Config, m: Scope, db: Jobs, job: Job) {
    && Known(config, m, db, job)
    && (Carried(config, m, db, job) || RecordOk(config, job))
    && (m.statuses ==> job.status != Queued)
    && (job.status.Succeeded? ==> job.receipt.Some?)
    && (job.status.Succeeded? || job.status.TimedOut? ==> Left(m, db, job.id))
  }

  /** A lock-free writer only ever repeats a cancellation. */
  predicate LandableAny(config: Config, m: Scope, db: Jobs, job: Job) {
    Writable(config, m, db, job) && (job.status.Canceled? ==> db[job.id].status == Canceled)
  }

  predicate PhaseOk(config: Config, m: Scope, db: Jobs, task: Task) {
    match task.phase
    case Starting(job) =>
      Writable(config, m, db, job) && Carried(config, m, db, job) && job.status == Running && job.id == task.id
    case Executing(job) => Carried(config, m, db, job) && job.id == task.id && Left(m, db, job.id)
    case Writing(job, _) => Writable(config, m, db, job) && !job.status.Canceled?
    case Finishing(job) => Writable(config, m, db, job) && (job.status.Canceled? ==> db[job.id].status == Canceled)
    case Wrapping(job) => Writable(config, m, db, job) && !job.status.Canceled?
    case _ => true
  }

  predicate TasksOk(config: Config, m: Scope, db: Jobs, tasks: map<TaskId, Task>) {
    forall t :: t in tasks ==> PhaseOk(config, m, db, tasks[t])
  }

  predicate LockOk(config: Config, m: Scope, db: Jobs, lock: Lock) {
    && (lock.CancelRequested? ==> Carried(config, m, db, lock.job) && Left(m, db, lock.job.id))
    && (lock.CancelWriting? ==> Writable(config, m, db, lock.job))
  }

  predicate WritesOk(config: Config, m: Scope, db: Jobs, writes: seq<Job>) {
    forall k :: 0 <= k < |writes| ==> LandableAny(config, m, db, writes[k])
  }

  predicate RecoveringOk(config: Config, m: Scope, db: Jobs, recovering: map<JobId, Job>) {
    forall id :: id in recovering ==> recovering[id].id == id && Carried(config, m, db, recovering[id])
  }

  predicate SubmittedOk(config: Config, m: Scope, db: Jobs, submitted: seq<Job>) {
    forall k :: 0 <= k < |submitted| ==> Carried(config, m, db, submitted[k])
  }

  predicate CheckedOk(config: Config, checked: seq<Job>) {
    forall k :: 0 <= k < |checked| ==> checked[k] == NewJob(config, checked[k].id, checked[k].spec)
  }

  predicate StreamsOk(m: Scope, db: Jobs, streams: set<JobId>) {
    forall id :: id in streams ==> id in db && Left(m, db, id)
  }

  predicate InFlight(config: Config, m: Scope, db: Jobs, s: State) {
    && TasksOk(config, m, db, s.tasks) && LockOk(config, m, db, s.lock) && WritesOk(config, m, db, s.writes)
    && RecoveringOk(config, m, db, s.recovering) && SubmittedOk(config, m, db, s.submitted)
    && StreamsOk(m, db, s.streams)
  }

  /** Only the lock holder is between a start or finish load and its write, and a job is not canceled in there. */
  predicate Locked(db: Jobs, tasks: map<TaskId, Task>, lock: Lock) {
    forall t :: t in tasks ==>
      && (tasks[t].phase.Starting? || tasks[t].phase.Finishing? ==> lock == HeldByTask(t))
      && (tasks[t].phase.Starting? && tasks[t].id in db ==> db[tasks[t].id].status != Canceled)
  }

  predicate Inv(config: Config, m: Scope, s: State) {
    && TableOk(config, s.db) && InFlight(config, m, s.db, s) && Locked(s.db, s.tasks, s.lock)
    && CheckedOk(config, s.checked)
  }

  lemma CarriedStable(config: Config, m: Scope, db: Jobs, later: Jobs, job: Job)
    requires Forward(m, db, later)
    ensures Carried(config, m, db, job) ==> Carried(config, m, later, job)
    ensures Writable(config, m, db, job) ==> Writable(config, m, later, job)
  {
  }

  lemma InFlightStable(config: Config, m: Scope, db: Jobs, later: Jobs, s: State)
    requires InFlight(config, m, db, s) && Forward(m, db, later)
    ensures InFlight(config, m, later, s)
  {
    forall t | t in s.tasks
      ensures PhaseOk(config, m, later, s.tasks[t])
    {
      assert PhaseOk(config, m, db, s.tasks[t]);
    }
    forall k | 0 <= k < |s.writes|
      ensures LandableAny(config, m, later, s.writes[k])
    {
      CarriedStable(config, m, db, later, s.writes[k]);
    }
  }

  lemma LoadedCarried(config: Config, m: Scope, db: Jobs, id: JobId)
    requires TableOk(config, db) && id in db
    ensures Carried(config, m, db, db[id])
  {
    assert RecordOk(config, db[id]);
  }

  lemma LoadedWritable(config: Config, m: Scope, db: Jobs, id: JobId, status: Status)
    requires TableOk(config, db) && id in db && (status.Running? || status.Failed? || status.Canceled?)
    ensures Writable(config, m, db, db[id].(status := status)) && Carried(config, m, db, db[id].(status := status))
  {
    LoadedCarried(config, m, db, id);
    CarriedWritable(config, m, db, db[id], status);
  }

  /** A carried copy may be written with a status its holder gives it. */
  lemma CarriedWritable(config: Config, m: Scope, db: Jobs, job: Job, status: Status)
    requires Carried(config, m, db, job) && !status.Queued? && !status.Succeeded?
    requires status.TimedOut? ==> Left(m, db, job.id)
    ensures Writable(config, m, db, job.(status := status)) && Carried(config, m, db, job.(status := status))
  {
  }

  /** Persisting a writable record moves the table forward and keeps it sound. */
  lemma PersistForward(config: Config, m: Scope, db: Jobs, job: Job, ok: bool)
    requires TableOk(config, db) && Writable(config, m, db, job)
    ensures Forward(m, db, PersistIf(db, job, ok)) && TableOk(config, PersistIf(db, job, ok))
  {
  }

  // Each kind of change a step makes to the state, and why the invariant survives it.

  /** A single write. A cancellation is only ever written by the lock holder, so it cannot hit a job that is just
      starting. */
  lemma WriteKeeps(config: Config, m: Scope, s: State, job: Job, ok: bool)
    requires Inv(config, m, s) && Writable(config, m, s.db, job)
    requires job.status.Canceled? ==> s.db[job.id].status == Canceled || !s.lock.HeldByTask?
    ensures Forward(m, s.db, PersistIf(s.db, job, ok)) && Inv(config, m, s.(db := PersistIf(s.db, job, ok)))
  {
    PersistForward(config, m, s.db, job, ok);
    InFlightStable(config, m, s.db, PersistIf(s.db, job, ok), s);
  }

  /** A task changes phase, possibly acquiring or releasing the lock. */
  lemma GotoKeeps(config: Config, m: Scope, s: State, task: TaskId, phase: Phase, lock: Lock)
    requires Inv(config, m, s) && task in s.tasks
    requires PhaseOk(config, m, s.db, s.tasks[task].(phase := phase))
    requires phase.Starting? || phase.Finishing? ==> s.lock.Free? && lock == HeldByTask(task)
    requires phase.Starting? ==> phase.job.id in s.db && s.db[phase.job.id].status != Canceled
    requires lock == s.lock || (s.lock.Free? && lock == HeldByTask(task)) || (s.lock == HeldByTask(task) && lock.Free?)
    ensures Inv(config, m, Goto(s, task, phase).(lock := lock))
  {
  }

  /** A cancellation takes, keeps or releases the lock. */
  lemma LockKeeps(config: Config, m: Scope, s: State, lock: Lock)
    requires Inv(config, m, s) && !s.lock.HeldByTask? && !lock.HeldByTask?
    requires LockOk(config, m, s.db, lock)
    ensures Inv(config, m, s.(lock := lock))
  {
  }

  /** A lock-free writer joins. */
  lemma PendingWriteKeeps(config: Config, m: Scope, s: State, job: Job)
    requires Inv(config, m, s) && LandableAny(config, m, s.db, job)
    ensures Inv(config, m, s.(writes := s.writes + [job]))
  {
  }

  /** Tasks, handles, stream sessions and pending work may disappear. */
  lemma TaskGone(config: Config, m: Scope, s: State, task: TaskId)
    requires Inv(config, m, s) && task in s.tasks && !s.tasks[task].phase.Starting? && !s.tasks[task].phase.Finishing?
    ensures Inv(config, m, Remove(s, task))
  {
  }

  lemma TaskAdded(config: Config, m: Scope, s: State, task: TaskId, id: JobId, phase: Phase)
    requires Inv(config, m, s) && task !in s.tasks && (phase.Spawned? || phase.Discarded?)
    ensures Inv(config, m, s.(tasks := s.tasks[task := Task(id, phase)]))
  {
    var more := s.tasks[task := Task(id, phase)];
    assert TasksOk(config, m, s.db, more) by {
      assert PhaseOk(config, m, s.db, more[task]);
    }
    assert Locked(s.db, more, s.lock);
  }

  lemma SpawnKeeps(config: Config, m: Scope, s: State, id: JobId, task: TaskId)
    requires Inv(config, m, s) && task !in s.tasks
    ensures Inv(config, m, Spawn(config, s, id, task).0) && Spawn(config, s, id, task).0.db == s.db
  {
    if |s.tasks| < config.queueLimit {
      TaskAdded(config, m, s, task, id, if id in s.handles then Discarded else Spawned);
    }
  }

  /** The table of `later` is a sound continuation of the table of `s`. */
  predicate Kept(config: Config, m: Scope, s: State, later: State) {
    Inv(config, m, later) && Forward(m, s.db, later.db)
  }

  /** The effect may take place: what it writes may be written now, its phase fits the table that leaves, and the lock
      is taken or given back by its holder. */
  predicate EffectOk(config: Config, m: Scope, s: State, task: TaskId, e: Effect) {
    && task in s.tasks
    && (e.written.Some? ==>
          && Writable(config, m, s.db, e.written.value)
          && (e.written.value.status.Canceled? ==>
                s.db[e.written.value.id].status == Canceled || !s.lock.HeldByTask?))
    && PhaseOk(config, m, After(s.db, e.written), Task(s.tasks[task].id, e.phase))
    && (e.phase.Starting? || e.phase.Finishing? ==> e.written.None? && s.lock.Free? && e.lock == HeldByTask(task))
    && (e.phase.Starting? ==> e.phase.job.id in s.db && s.db[e.phase.job.id].status != Canceled)
    && (|| e.lock == s.lock || (s.lock.Free? && e.lock == HeldByTask(task))
        || (s.lock == HeldByTask(task) && e.lock.Free?))
  }

  lemma EffectKeeps(config: Config, m: Scope, s: State, task: TaskId, e: Effect)
    requires Inv(config, m, s) && EffectOk(config, m, s, task, e)
    ensures Kept(config, m, s, Goto(s.(db := After(s.db, e.written)), task, e.phase).(lock := e.lock))
  {
    var written := s.(db := After(s.db, e.written));
    if e.written.Some? {
      WriteKeeps(config, m, s, e.written.value, true);
    } else {
      assert written == s;
    }
    GotoKeeps(config, m, written, task, e.phase, e.lock);
  }

  // One lemma per action that reads or writes a record.

  lemma StartLoadOk(config: Config, m: Scope, s: State, task: TaskId)
    requires Inv(config, m, s) && TaskEnabled(s, task, StartLoad)
    ensures EffectOk(config, m, s, task, TaskEffect(config, s, task, StartLoad))
  {
    var id := s.tasks[task].id;
    if id in s.db {
      LoadedWritable(config, m, s.db, id, Running);
    }
  }

  lemma StartPersistOk(config: Config, m: Scope, s: State, task: TaskId, ok: bool)
    requires Inv(config, m, s) && TaskEnabled(s, task, StartPersist(ok))
    ensures EffectOk(config, m, s, task, TaskEffect(config, s, task, StartPersist(ok)))
  {
    var job := s.tasks[task].phase.job;
    assert PhaseOk(config, m, s.db, s.tasks[task]);
    PersistForward(config, m, s.db, job, ok);
    CarriedStable(config, m, s.db, PersistIf(s.db, job, ok), job);
  }

  lemma ExecFailOk(config: Config, m: Scope, s: State, task: TaskId)
    requires Inv(config, m, s) && TaskEnabled(s, task, ExecFail)
    ensures EffectOk(config, m, s, task, TaskEffect(config, s, task, ExecFail))
    ensures EffectOk(config, m, s, task, TaskEffect(config, s, task, ExecTimeout))
  {
    var job := s.tasks[task].phase.job;
    assert PhaseOk(config, m, s.db, s.tasks[task]);
    CarriedWritable(config, m, s.db, job, Failed);
    CarriedWritable(config, m, s.db, job, TimedOut);
  }

  lemma WriteOk(config: Config, m: Scope, s: State, task: TaskId, act: TaskAction)
    requires Inv(config, m, s) && TaskEnabled(s, task, act) && (act.WriteOwn? || act.WrapPersist?)
    ensures EffectOk(config, m, s, task, TaskEffect(config, s, task, act))
  {
    assert PhaseOk(config, m, s.db, s.tasks[task]);
  }

  lemma FinishLoadOk(config: Config, m: Scope, s: State, task: TaskId, exitCode: int)
    requires Inv(config, m, s) && TaskEnabled(s, task, FinishLoad(exitCode))
    ensures EffectOk(config, m, s, task, TaskEffect(config, s, task, FinishLoad(exitCode)))
  {
    assert PhaseOk(config, m, s.db, s.tasks[task]);
  }

  lemma FinishPersistOk(config: Config, m: Scope, s: State, task: TaskId, ok: bool)
    requires Inv(config, m, s) && TaskEnabled(s, task, FinishPersist(ok))
    ensures EffectOk(config, m, s, task, TaskEffect(config, s, task, FinishPersist(ok)))
  {
    assert PhaseOk(config, m, s.db, s.tasks[task]);
  }

  lemma WrapLoadOk(config: Config, m: Scope, s: State, task: TaskId, ok: bool)
    requires Inv(config, m, s) && TaskEnabled(s, task, WrapLoad(ok))
    ensures EffectOk(config, m, s, task, TaskEffect(config, s, task, WrapLoad(ok)))
  {
    var id := s.tasks[task].id;
    if id in s.db {
      LoadedWritable(config, m, s.db, id, Failed);
    }
  }

  lemma EffectsOk(config: Config, m: Scope, s: State, task: TaskId, act: TaskAction)
    requires Inv(config, m, s) && TaskEnabled(s, task, act) && !Silent(act)
    ensures EffectOk(config, m, s, task, TaskEffect(config, s, task, act))
  {
    match act
    case StartLoad => StartLoadOk(config, m, s, task);
    case StartPersist(ok) => StartPersistOk(config, m, s, task, ok);
    case ExecFail => ExecFailOk(config, m, s, task);
    case ExecTimeout => ExecFailOk(config, m, s, task);
    case WriteOwn(_) => WriteOk(config, m, s, task, act);
    case FinishLoad(exitCode) => FinishLoadOk(config, m, s, task, exitCode);
    case FinishPersist(ok) => FinishPersistOk(config, m, s, task, ok);
    case WrapLoad(ok) => WrapLoadOk(config, m, s, task, ok);
    case WrapPersist(_) => WriteOk(config, m, s, task, act);
  }

  lemma MoveKeeps(config: Config, m: Scope, s: State, task: TaskId)
    requires Inv(config, m, s) && task in s.tasks
    ensures Kept(config, m, s, Goto(s, task, Erring))
  {
    GotoKeeps(config, m, s, task, Erring, s.lock);
    var later := Goto(s, task, Erring);
    assert later.(lock := s.lock) == later;
  }

  lemma SilentKeeps(config: Config, m: Scope, s: State, task: TaskId, act: TaskAction)
    requires Inv(config, m, s) && TaskEnabled(s, task, act) && Silent(act)
    ensures Kept(config, m, s, ApplySilent(config, s, task, act))
  {
    if act.Leave? || act.AbortLands? {
      TaskGone(config, m, s, task);
    } else if act.OpenStream? {
      assert PhaseOk(config, m, s.db, s.tasks[task]);
    } else {
      MoveKeeps(config, m, s, task);
    }
  }

  lemma TaskKeeps(config: Config, m: Scope, s: State, task: TaskId, act: TaskAction)
    requires Inv(config, m, s) && TaskEnabled(s, task, act)
    ensures Kept(config, m, s, ApplyTask(config, s, task, act))
  {
    if Silent(act) {
      SilentKeeps(config, m, s, task, act);
    } else {
      EffectsOk(config, m, s, task, act);
      EffectKeeps(config, m, s, task, TaskEffect(config, s, task, act));
    }
  }

  /** A new record may replace an old one: in scope, it must not be a running one, nor one of another specification. */
  predicate InsertOk(m: Scope, db: Jobs, job: Job) {
    job.id in db ==> (m.statuses ==> db[job.id].status != Running) && (m.specs ==> db[job.id].spec == job.spec)
  }

  predicate StepOk(m: Scope, s: State, step: Step) {
    match step
    case BySubmit(SubmitInsert(k)) => k < |s.checked| ==> InsertOk(m, s.db, s.checked[k])
    case _ => true
  }

  lemma InsertForward(config: Config, m: Scope, db: Jobs, job: Job)
    requires TableOk(config, db) && InsertOk(m, db, job) && job == NewJob(config, job.id, job.spec)
    ensures Forward(m, db, Persist(db, job)) && TableOk(config, Persist(db, job))
    ensures Carried(config, m, Persist(db, job), job)
  {
  }

  lemma SubmitInsertKeeps(config: Config, m: Scope, s: State, k: nat)
    requires Inv(config, m, s) && k < |s.checked| && InsertOk(m, s.db, s.checked[k])
    ensures Kept(config, m, s, ApplySubmit(config, s, SubmitInsert(k)))
  {
    var job := s.checked[k];
    InsertForward(config, m, s.db, job);
    InFlightStable(config, m, s.db, Persist(s.db, job), s);
  }

  lemma SubmitSpawnKeeps(config: Config, m: Scope, s: State, k: nat, task: TaskId)
    requires Inv(config, m, s) && SubmitEnabled(s, SubmitSpawn(k, task))
    ensures Kept(config, m, s, ApplySubmit(config, s, SubmitSpawn(k, task)))
  {
    var job, fewer := s.submitted[k], s.(submitted := Without(s.submitted, k));
    assert Carried(config, m, s.db, job);
    CarriedWritable(config, m, s.db, job, Failed);
    SpawnKeeps(config, m, fewer, job.id, task);
    PendingWriteKeeps(config, m, Spawn(config, fewer, job.id, task).0, job.(status := Failed));
  }

  lemma SubmitKeeps(config: Config, m: Scope, s: State, act: SubmitAction)
    requires Inv(config, m, s) && SubmitEnabled(s, act) && StepOk(m, s, BySubmit(act))
    ensures Kept(config, m, s, ApplySubmit(config, s, act))
  {
    match act
    case SubmitInsert(k) => SubmitInsertKeeps(config, m, s, k);
    case SubmitSpawn(k, task) => SubmitSpawnKeeps(config, m, s, k, task);
    case _ =>
  }

  lemma AbortKeeps(config: Config, m: Scope, s: State, id: JobId)
    requires Inv(config, m, s)
    ensures Inv(config, m, AbortHandle(s, id)) && AbortHandle(s, id).db == s.db && AbortHandle(s, id).lock == s.lock
  {
  }

  lemma CancelLockOk(config: Config, m: Scope, db: Jobs, id: JobId)
    requires TableOk(config, db) && id in db
    ensures LockOk(config, m, db, LockFor(db[id]))
  {
    LoadedWritable(config, m, db, id, Canceled);
    LoadedCarried(config, m, db, id);
  }

  lemma CancelLoadKeeps(config: Config, m: Scope, s: State, id: JobId)
    requires Inv(config, m, s) && CancelEnabled(s, CancelLoad(id))
    ensures Kept(config, m, s, ApplyCancel(s, CancelLoad(id)))
  {
    CancelLockOk(config, m, s.db, id);
    LockKeeps(config, m, s, LockFor(s.db[id]));
  }

  lemma CancelKillKeeps(config: Config, m: Scope, s: State, firecracker: bool)
    requires Inv(config, m, s) && CancelEnabled(s, CancelKill(firecracker))
    ensures Kept(config, m, s, ApplyCancel(s, CancelKill(firecracker)))
  {
    var job := s.lock.job;
    if firecracker && job.id in s.db && Terminal(s.db[job.id].status) {
      LockKeeps(config, m, s, Free);
    } else {
      CarriedWritable(config, m, s.db, job, Canceled);
      AbortKeeps(config, m, s, job.id);
      LockKeeps(config, m, AbortHandle(s, job.id), CancelWriting(job.(status := Canceled)));
    }
  }

  lemma CancelPersistKeeps(config: Config, m: Scope, s: State, ok: bool)
    requires Inv(config, m, s) && CancelEnabled(s, CancelPersist(ok))
    ensures Kept(config, m, s, ApplyCancel(s, CancelPersist(ok)))
  {
    var job, written := s.lock.job, s.(db := PersistIf(s.db, s.lock.job, ok));
    WriteKeeps(config, m, s, job, ok);
    AbortKeeps(config, m, written, job.id);
    LockKeeps(config, m, if ok then AbortHandle(written, job.id) else written, Free);
  }

  lemma CancelKeeps(config: Config, m: Scope, s: State, act: CancelAction)
    requires Inv(config, m, s) && CancelEnabled(s, act)
    ensures Kept(config, m, s, ApplyCancel(s, act))
  {
    match act
    case CancelLoad(id) => CancelLoadKeeps(config, m, s, id);
    case CancelGiveUp => LockKeeps(config, m, s, Free);
    case CancelKill(firecracker) => CancelKillKeeps(config, m, s, firecracker);
    case CancelPersist(ok) => CancelPersistKeeps(config, m, s, ok);
  }

  lemma AppendLoadKeeps(config: Config, m: Scope, s: State, id: JobId)
    requires Inv(config, m, s) && AgentEnabled(s, AppendLoad(id))
    ensures Kept(config, m, s, ApplyAgent(config, s, AppendLoad(id)))
  {
    LoadedCarried(config, m, s.db, id);
    PendingWriteKeeps(config, m, s, s.db[id]);
  }

  lemma RecoverScanKeeps(config: Config, m: Scope, s: State)
    requires Inv(config, m, s) && s.booting
    ensures Kept(config, m, s, ApplyAgent(config, s, RecoverScan))
  {
    forall id | id in s.db
      ensures Carried(config, m, s.db, s.db[id])
    {
      LoadedCarried(config, m, s.db, id);
    }
  }

  lemma RecoverInterruptedKeeps(config: Config, m: Scope, s: State, id: JobId, ok: bool)
    requires Inv(config, m, s) && AgentEnabled(s, RecoverInterrupted(id, ok))
    ensures Kept(config, m, s, ApplyAgent(config, s, RecoverInterrupted(id, ok)))
  {
    assert Carried(config, m, s.db, s.recovering[id]);
    CarriedWritable(config, m, s.db, s.recovering[id], Failed);
    WriteKeeps(config, m, s, s.recovering[id].(status := Failed), ok);
  }

  lemma RecoverLoadKeeps(config: Config, m: Scope, s: State, id: JobId)
    requires Inv(config, m, s) && AgentEnabled(s, RecoverLoad(id))
    ensures Kept(config, m, s, ApplyAgent(config, s, RecoverLoad(id)))
  {
    LoadedWritable(config, m, s.db, id, Failed);
    PendingWriteKeeps(config, m, s, s.db[id].(status := Failed));
  }

  lemma WriteLandsKeeps(config: Config, m: Scope, s: State, k: nat, ok: bool)
    requires Inv(config, m, s) && AgentEnabled(s, WriteLands(k, ok))
    ensures Kept(config, m, s, ApplyAgent(config, s, WriteLands(k, ok)))
  {
    WriteKeeps(config, m, s, s.writes[k], ok);
  }

  lemma RestartKeeps(config: Config, m: Scope, s: State)
    requires Inv(config, m, s)
    ensures Kept(config, m, s, ApplyAgent(config, s, Restart))
  {
  }

  lemma RecoverQueuedKeeps(config: Config, m: Scope, s: State, id: JobId, task: TaskId)
    requires Inv(config, m, s) && AgentEnabled(s, RecoverQueued(id, task))
    ensures Kept(config, m, s, ApplyAgent(config, s, RecoverQueued(id, task)))
  {
    var fewer := s.(recovering := s.recovering - {id});
    SpawnKeeps(config, m, fewer, id, task);
    var later := Spawn(config, fewer, id, task).0;
    UnspawnedKeeps(config, m, later, later.unspawned + {id});
  }

  lemma UnspawnedKeeps(config: Config, m: Scope, s: State, unspawned: set<JobId>)
    requires Inv(config, m, s)
    ensures Inv(config, m, s.(unspawned := unspawned))
  {
  }

  lemma AgentKeeps(config: Config, m: Scope, s: State, act: AgentAction)
    requires Inv(config, m, s) && AgentEnabled(s, act)
    ensures Kept(config, m, s, ApplyAgent(config, s, act))
  {
    match act
    case AppendLoad(id) => AppendLoadKeeps(config, m, s, id);
    case WriteLands(k, ok) => WriteLandsKeeps(config, m, s, k, ok);
    case Restart => RestartKeeps(config, m, s);
    case RecoverScan => RecoverScanKeeps(config, m, s);
    case RecoverInterrupted(id, ok) => RecoverInterruptedKeeps(config, m, s, id, ok);
    case RecoverQueued(id, task) => RecoverQueuedKeeps(config, m, s, id, task);
    case RecoverLoad(id) => RecoverLoadKeeps(config, m, s, id);
  }

  /** Every step keeps the invariant and moves the table forward. */
  lemma StepKeeps(config: Config, m: Scope, s: State, step: Step)
    requires Inv(config, m, s) && Enabled(s, step) && StepOk(m, s, step)
    ensures Kept(config, m, s, Apply(config, s, step))
  {
    match step
    case ByTask(task, act) => TaskKeeps(config, m, s, task, act);
    case BySubmit(act) => SubmitKeeps(config, m, s, act);
    case ByCancel(act) => CancelKeeps(config, m, s, act);
    case ByAgent(act) => AgentKeeps(config, m, s, act);
  }
}
