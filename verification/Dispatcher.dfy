/** Concurrent dispatch (src/astropath/data_plane/dispatcher.py) over shared provider records
    (src/astropath/providers/route53.py), as a state machine.

    Each verified request is a task; a step is what happens between two await points of one
    task, or one answer of the outside world.  Any interleaving of enabled steps is a run.  The
    lock of each record owner is an asyncio lock: a first-come queue that a free lock with an
    empty queue lets a newcomer skip.  `log` and `arrivals` are history: in which order tasks
    took their lock, what became of their change, and in which order they asked. */
module Dispatcher {
  import opened Wrappers
  import opened Names
  import opened Routing
  import opened Dispatch
  import R = Route53

  // ---------------------------------------------------------------- records and operations

  /** A provider-side record.  Hurricane Electric keeps one value per record name. */
  datatype Resource = Rrset(hostedZone: string, owner: Name) | HeRecord(owner: Name)

  type Remote = map<Resource, R.RRset>

  function ResourceOf(job: Job): Resource {
    match job.route.provider
    case AmazonRoute53(zone, _) => Rrset(zone, job.owner)
    case HurricaneElectric(_) => HeRecord(job.owner)
  }

  function Content(remote: Remote, r: Resource): Option<R.RRset> {
    if r in remote then Some(remote[r]) else None
  }

  function Put(remote: Remote, r: Resource, content: Option<R.RRset>): Remote {
    if content.Some? then remote[r := content.value] else remote - {r}
  }

  /** The change a job submits for what it has read; Hurricane Electric overwrites unread. */
  function PlanFor(job: Job, existing: Option<R.RRset>): Option<R.Change> {
    match job.route.provider
    case AmazonRoute53(_, _) => R.Plan(job.op, existing)
    case HurricaneElectric(_) => Some(Overwrite(job))
  }

  /** Present writes the one token, cleanup the placeholder, since nothing can be deleted. */
  function Overwrite(job: Job): R.Change {
    var placeholder := if job.route.provider.HurricaneElectric? then job.route.provider.placeholder else "";
    R.Upsert(0, [if job.op.action == R.Present && job.op.tokens != [] then job.op.tokens[0] else placeholder])
  }

  /** What the job makes of its record when it runs alone and its change is not lost. */
  function AloneFor(job: Job, existing: Option<R.RRset>): Option<R.RRset> {
    var plan := PlanFor(job, existing);
    if plan.Some? && R.Execute(existing, plan.value).Some? then R.Execute(existing, plan.value).value else existing
  }

  // ---------------------------------------------------------------- tasks, locks, state

  datatype Phase =
    | Reading                    // the listing is outstanding
    | Changing(change: R.Change) // the change is outstanding
    | Confirming                 // the change is in force, its answer or INSYNC is outstanding
    | Returned(ok: bool)         // the provider call has returned or raised
    | Auditing(ok: bool)         // counted; the audit row is being written

  datatype Audit = Written | Failed | NoSink

  /** `slot` is the task's place in `log`. */
  datatype Task =
    | Turned(verdict: Verdict)                      // answered or dropped without a provider call
    | Queued(job: Job)
    | Active(job: Job, slot: nat, phase: Phase)     // holds its owner's lock
    | Answered(job: Job, slot: nat, ok: bool, rcode: Rcode, audit: Audit)

  datatype Lock = Lock(holder: Option<nat>, waiters: seq<nat>)

  datatype Effect = Undecided | Applied | NotApplied

  datatype Entry = Entry(tid: nat, job: Job, effect: Effect)

  datatype Arrival = Arrival(tid: nat, owner: Name)

  datatype Label = Label(provider: string, action: R.Action, result: string)

  datatype AuditRow = AuditRow(zone: Name, owner: Name, action: R.Action, provider: string, result: string)

  datatype State = State(
    sink: bool,
    tasks: map<nat, Task>,
    locks: map<Name, Lock>,
    remote: Remote,
    challenges: multiset<Label>,
    rows: multiset<AuditRow>,
    auditFailures: nat,
    log: seq<Entry>,
    arrivals: seq<Arrival>)

  function Initial(sink: bool, remote: Remote): State {
    State(sink, map[], map[], remote, multiset{}, multiset{}, 0, [], [])
  }

  /** `_lock_for`: a lock is created free on first use. */
  function LockFor(locks: map<Name, Lock>, owner: Name): Lock {
    if owner in locks then locks[owner] else Lock(None, [])
  }

  function ProviderName(provider: Provider): string {
    if provider.AmazonRoute53? then "route53" else "hurricane"
  }

  /** The challenges counter: a failed cleanup is answered NOERROR and counted as suppressed. */
  function LabelOf(job: Job, ok: bool): Label {
    Label(ProviderName(job.route.provider), job.op.action,
          if ok then "ok" else if job.op.action == R.Cleanup then "suppressed" else "error")
  }

  function RowOf(job: Job, ok: bool): AuditRow {
    AuditRow(job.route.zone, job.owner, job.op.action, ProviderName(job.route.provider), if ok then "ok" else "error")
  }

  function RcodeOf(job: Job, ok: bool): Rcode {
    if ok || job.op.action == R.Cleanup then NOERROR else SERVFAIL
  }

  // ---------------------------------------------------------------- steps

  datatype Step =
    | Arrive(tid: nat, verdict: Verdict)
    | Wake(tid: nat)
    | ReadOk(tid: nat, plan: Option<R.Change>)
    | ReadFails(tid: nat)
    | Apply(tid: nat, content: Option<R.RRset>)
    | Lose(tid: nat)
    | Benign(tid: nat)
    | Confirm(tid: nat, ok: bool)
    | Record(tid: nat)
    | AuditDone(tid: nat, written: bool)

  predicate InPhase(s: State, t: nat) {
    t in s.tasks && s.tasks[t].Active?
  }

  /** The provider returns normally only for what took effect.  It is not so for a Hurricane
      Electric cleanup: `noipv4` and `noipv6` count as success there, and promise nothing; when
      nothing was written, that is the step `Benign`. */
  predicate MustTakeEffect(job: Job) {
    job.route.provider.AmazonRoute53? || job.op.action == R.Present
  }

  /** The task is at the point where the step can happen. */
  predicate Ready(s: State, step: Step) {
    var t := step.tid;
    match step
    case Arrive(_, _) => t !in s.tasks
    case Wake(_) =>
      t in s.tasks && s.tasks[t].Queued? &&
      var lock := LockFor(s.locks, s.tasks[t].job.owner);
      lock.holder == None && lock.waiters != [] && lock.waiters[0] == t
    case ReadOk(_, _) => InPhase(s, t) && s.tasks[t].phase.Reading?
    case ReadFails(_) => InPhase(s, t) && s.tasks[t].phase.Reading?
    case Apply(_, _) => InPhase(s, t) && s.tasks[t].phase.Changing?
    case Lose(_) => InPhase(s, t) && s.tasks[t].phase.Changing?
    case Benign(_) => InPhase(s, t) && s.tasks[t].phase.Changing? && !MustTakeEffect(s.tasks[t].job)
    case Confirm(_, _) => InPhase(s, t) && s.tasks[t].phase.Confirming?
    case Record(_) => InPhase(s, t) && s.tasks[t].phase.Returned?
    case AuditDone(_, _) => InPhase(s, t) && s.tasks[t].phase.Auditing?
  }

  /** A read sees the record as it is, and a change does to it what Route 53 would. */
  predicate Faithful(s: State, step: Step)
    requires Ready(s, step)
  {
    match step
    case ReadOk(t, plan) => plan == PlanFor(s.tasks[t].job, Content(s.remote, ResourceOf(s.tasks[t].job)))
    case Apply(t, content) =>
      R.Execute(Content(s.remote, ResourceOf(s.tasks[t].job)), s.tasks[t].phase.change) == Some(content)
    case _ => true
  }

  predicate Enabled(s: State, step: Step) {
    Ready(s, step) && Faithful(s, step)
  }

  /** The job that takes its lock in this step: a newcomer finds the lock free and nobody in
      the queue, or the head of the queue wakes. */
  function Starts(s: State, step: Step): Option<Job>
    requires Ready(s, step)
  {
    match step
    case Arrive(_, Call(job)) =>
      var lock := LockFor(s.locks, job.owner);
      if lock.holder == None && lock.waiters == [] then Some(job) else None
    case Wake(t) => Some(s.tasks[t].job)
    case _ => None
  }

  /** The fate of the task's operation, when this step settles it. */
  function Settles(step: Step): Option<Effect> {
    match step
    case ReadOk(_, plan) => if plan == None then Some(Applied) else None
    case Apply(_, _) => Some(Applied)
    case ReadFails(_) | Lose(_) | Benign(_) => Some(NotApplied)
    case _ => None
  }

  /** The task is answered in this step, and releases its lock. */
  predicate Answers(s: State, step: Step) {
    step.AuditDone? || (step.Record? && !s.sink)
  }

  function Started(s: State, job: Job): Task {
    Active(job, |s.log|, if job.route.provider.AmazonRoute53? then Reading else Changing(Overwrite(job)))
  }

  function NextTask(s: State, step: Step): Task
    requires Ready(s, step)
  {
    var t := step.tid;
    match step
    case Arrive(_, verdict) =>
      if Starts(s, step).Some? then Started(s, Starts(s, step).value)
      else if verdict.Call? then Queued(verdict.job)
      else Turned(verdict)
    case Wake(_) => Started(s, s.tasks[t].job)
    case ReadOk(_, plan) => s.tasks[t].(phase := if plan.Some? then Changing(plan.value) else Returned(true))
    case ReadFails(_) | Lose(_) => s.tasks[t].(phase := Returned(false))
    case Benign(_) => s.tasks[t].(phase := Returned(true))
    case Apply(_, _) => s.tasks[t].(phase := Confirming)
    case Confirm(_, ok) => s.tasks[t].(phase := Returned(ok))
    case Record(_) =>
      var Active(job, slot, Returned(ok)) := s.tasks[t];
      if s.sink then Active(job, slot, Auditing(ok)) else Answered(job, slot, ok, RcodeOf(job, ok), NoSink)
    case AuditDone(_, written) =>
      var Active(job, slot, Auditing(ok)) := s.tasks[t];
      Answered(job, slot, ok, RcodeOf(job, ok), if written then Written else Failed)
  }

  function NextLocks(s: State, step: Step): map<Name, Lock>
    requires Ready(s, step)
  {
    var t, starts := step.tid, Starts(s, step);
    if starts.Some? then
      var waiters := LockFor(s.locks, starts.value.owner).waiters;
      s.locks[starts.value.owner := Lock(Some(t), if step.Wake? then waiters[1..] else waiters)]
    else if step.Arrive? && step.verdict.Call? then
      var lock := LockFor(s.locks, step.verdict.job.owner);
      s.locks[step.verdict.job.owner := lock.(waiters := lock.waiters + [t])]
    else if Answers(s, step) then
      s.locks[s.tasks[t].job.owner := LockFor(s.locks, s.tasks[t].job.owner).(holder := None)]
    else s.locks
  }

  function NextLog(s: State, step: Step): seq<Entry>
    requires Ready(s, step)
  {
    var t, starts := step.tid, Starts(s, step);
    if starts.Some? then s.log + [Entry(t, starts.value, Undecided)]
    else if Settles(step).Some? && s.tasks[t].slot < |s.log| then
      var slot := s.tasks[t].slot;
      s.log[slot := s.log[slot].(effect := Settles(step).value)]
    else s.log
  }

  function NextRemote(s: State, step: Step): Remote
    requires Ready(s, step)
  {
    if step.Apply? then Put(s.remote, ResourceOf(s.tasks[step.tid].job), step.content) else s.remote
  }

  /** Counters and audit rows: Record counts the outcome, AuditDone writes or loses the row. */
  function NextChallenges(s: State, step: Step): multiset<Label>
    requires Ready(s, step)
  {
    if step.Record? then s.challenges + multiset{LabelOf(s.tasks[step.tid].job, s.tasks[step.tid].phase.ok)}
    else s.challenges
  }

  function NextRows(s: State, step: Step): multiset<AuditRow>
    requires Ready(s, step)
  {
    if step.AuditDone? && step.written then
      s.rows + multiset{RowOf(s.tasks[step.tid].job, s.tasks[step.tid].phase.ok)}
    else s.rows
  }

  function NextArrivals(s: State, step: Step): seq<Arrival> {
    if step.Arrive? && step.verdict.Call? then s.arrivals + [Arrival(step.tid, step.verdict.job.owner)] else s.arrivals
  }

  function Do(s: State, step: Step): State
    requires Ready(s, step)
  {
    State(
      s.sink,
      s.tasks[step.tid := NextTask(s, step)],
      NextLocks(s, step),
      NextRemote(s, step),
      NextChallenges(s, step),
      NextRows(s, step),
      s.auditFailures + (if step.AuditDone? && !step.written then 1 else 0),
      NextLog(s, step),
      NextArrivals(s, step))
  }

  // ---------------------------------------------------------------- the object

  /** The dispatcher's own state, which its tasks share, with the counters it moves and the rows
      its sink has.  `s` is the machine's state: each method is the stretch of code between two
      await points and moves the object as the step moves the machine. */
  class ChallengeDispatcher {
    const sink: bool
    var locks: map<Name, Lock>
    var challenges: multiset<Label>
    var rows: multiset<AuditRow>
    var auditFailures: nat

    constructor (sink: bool, ghost remote: Remote)
      ensures Shows(Initial(sink, remote))
    {
      this.sink, locks, challenges, rows, auditFailures := sink, map[], multiset{}, multiset{}, 0;
    }

    ghost predicate Shows(s: State)
      reads this
    {
      && sink == s.sink && locks == s.locks
      && challenges == s.challenges && rows == s.rows && auditFailures == s.auditFailures
    }

    /** `_lock_for`: the owner's lock, created free on first use. */
    method LockOn(owner: Name) returns (lock: Lock)
      modifies this`locks
      ensures lock == LockFor(old(locks), owner) && locks == old(locks)[owner := lock]
    {
      if owner !in locks {
        locks := locks[owner := Lock(None, [])];
      }
      lock := locks[owner];
      assert locks == old(locks)[owner := lock];
    }

    /** Entering the lock: a free one without a queue is taken, else the task queues. */
    method Enter(tid: nat, job: Job, ghost s: State)
      requires Shows(s) && tid !in s.tasks
      modifies this`locks
      ensures Shows(Do(s, Arrive(tid, Call(job))))
    {
      var lock := LockOn(job.owner);
      if lock.holder == None && lock.waiters == [] {
        locks := locks[job.owner := Lock(Some(tid), [])];
      } else {
        locks := locks[job.owner := lock.(waiters := lock.waiters + [tid])];
      }
    }

    /** A verified UPDATE up to its wait for the lock. */
    method Dispatch(tid: nat, msg: UpdateMessage, routing: RoutingTable<Provider>, ghost s: State)
      returns (verdict: Verdict)
      requires Shows(s) && tid !in s.tasks
      modifies this`locks
      ensures verdict == Admit(Query(true, OPCODE_UPDATE, msg), routing.byZone)
      ensures verdict.Call? || verdict == Reply(REFUSED)
      ensures Shows(Do(s, Arrive(tid, verdict)))
    {
      if msg.zones == [] {
        return Reply(REFUSED);
      }
      var route := routing.Match(Canonical(msg.zones[0]));
      if route == None {
        return Reply(REFUSED);
      }
      var action := ValidateWriteSurface(msg, route.value);
      if action.Err? {
        return Reply(REFUSED);
      }
      var provider, rrset := route.value.provider, msg.updates[0];
      var values := NormalizeValues(rrset.rdatas, action.value, provider.SupportsMultivalue());
      if values.Err? {
        return Reply(REFUSED);
      }
      var job := Job(Query(true, OPCODE_UPDATE, msg), route.value, Canonical(rrset.owner),
                     R.Operation(action.value, TtlOf(provider), values.value));
      Enter(tid, job, s);
      return Call(job);
    }

    method Release(owner: Name)
      requires owner in locks
      modifies this`locks
      ensures locks == old(locks)[owner := old(locks)[owner].(holder := None)]
    {
      locks := locks[owner := locks[owner].(holder := None)];
    }

    /** The provider call has returned (`ok`) or raised: count it, and answer without a sink. */
    method RecordOutcome(tid: nat, job: Job, ok: bool, ghost s: State) returns (rcode: Rcode)
      requires Shows(s) && Enabled(s, Record(tid)) && s.tasks[tid].job == job && s.tasks[tid].phase == Returned(ok)
      requires job.owner in locks
      modifies this
      ensures Shows(Do(s, Record(tid)))
      ensures var provider := if job.route.provider.AmazonRoute53? then "route53" else "hurricane";
              var result := if ok then "ok" else if job.op.action == R.Present then "error" else "suppressed";
              challenges == old(challenges) + multiset{Label(provider, job.op.action, result)}
      ensures rows == old(rows) && auditFailures == old(auditFailures)
      ensures locks == if sink then old(locks) else old(locks)[job.owner := old(locks)[job.owner].(holder := None)]
      ensures rcode == SERVFAIL <==> !ok && job.op.action == R.Present
      ensures rcode != SERVFAIL ==> rcode == NOERROR
    {
      var result := "ok";
      rcode := NOERROR;
      if !ok {
        result := "error";
        if job.op.action == R.Present {
          rcode := SERVFAIL;
        }
      }
      var suppressed := result == "error" && job.op.action == R.Cleanup;
      challenges := challenges + multiset{Label(ProviderName(job.route.provider), job.op.action,
                                                if suppressed then "suppressed" else result)};
      if !sink {
        Release(job.owner);
      }
    }

    /** The audit write has ended: a row, or a counted failure that changes no answer. */
    method AuditEnds(tid: nat, job: Job, ok: bool, written: bool, ghost s: State)
      requires Shows(s) && Enabled(s, AuditDone(tid, written)) && s.tasks[tid].job == job
                && s.tasks[tid].phase == Auditing(ok)
      requires job.owner in locks
      modifies this
      ensures Shows(Do(s, AuditDone(tid, written)))
      ensures var provider := if job.route.provider.AmazonRoute53? then "route53" else "hurricane";
              var row := AuditRow(job.route.zone, job.owner, job.op.action, provider, if ok then "ok" else "error");
              rows == if written then old(rows) + multiset{row} else old(rows)
      ensures auditFailures == old(auditFailures) + (if written then 0 else 1) && challenges == old(challenges)
      ensures locks == old(locks)[job.owner := old(locks)[job.owner].(holder := None)]
    {
      if written {
        rows := rows + multiset{RowOf(job, ok)};
      } else {
        auditFailures := auditFailures + 1;
      }
      Release(job.owner);
    }
  }

  // ---------------------------------------------------------------- runs

  ghost predicate Legal(s0: State, steps: seq<Step>)
    decreases |steps|, 0
  {
    steps == [] ||
    (Legal(s0, steps[..|steps| - 1]) && Enabled(After(s0, steps[..|steps| - 1]), steps[|steps| - 1]))
  }

  ghost function After(s0: State, steps: seq<Step>): State
    requires Legal(s0, steps)
    decreases |steps|, 1
  {
    if steps == [] then s0 else Do(After(s0, steps[..|steps| - 1]), steps[|steps| - 1])
  }

  // ---------------------------------------------------------------- the lock discipline

  type Tasks = map<nat, Task>
  type Locks = map<Name, Lock>

  predicate Holding(tasks: Tasks, t: nat, owner: Name) {
    t in tasks && tasks[t].Active? && tasks[t].job.owner == owner
  }

  predicate Waiting(tasks: Tasks, t: nat, owner: Name) {
    t in tasks && tasks[t].Queued? && tasks[t].job.owner == owner
  }

  /** A lock names its holder, and its queue names waiting tasks, once each. */
  ghost predicate LockOk(tasks: Tasks, lock: Lock, owner: Name) {
    && (lock.holder.Some? ==> Holding(tasks, lock.holder.value, owner))
    && (forall i :: 0 <= i < |lock.waiters| ==> Waiting(tasks, lock.waiters[i], owner))
    && (forall i, j :: 0 <= i < j < |lock.waiters| ==> lock.waiters[i] != lock.waiters[j])
  }

  /** A task past the queue holds its owner's lock; a queued one is in its queue. */
  ghost predicate TaskOk(task: Task, locks: Locks, t: nat) {
    match task
    case Active(job, _, _) => LockFor(locks, job.owner).holder == Some(t)
    case Queued(job) => t in LockFor(locks, job.owner).waiters
    case _ => true
  }

  ghost predicate LocksOk(tasks: Tasks, locks: Locks) {
    && (forall owner :: LockOk(tasks, LockFor(locks, owner), owner))
    && (forall t :: t in tasks ==> TaskOk(tasks[t], locks, t))
  }

  /** Changing one task and one lock together keeps the discipline, if each fits the other. */
  lemma LocksOkAfter(tasks: Tasks, locks: Locks, t: nat, task: Task, owner: Name, lock: Lock)
    requires LocksOk(tasks, locks)
    requires t in tasks && (tasks[t].Queued? || tasks[t].Active?) ==> tasks[t].job.owner == owner
    requires LockOk(tasks[t := task], lock, owner)
    requires TaskOk(task, locks[owner := lock], t)
    requires forall u :: u != t && Holding(tasks, u, owner) ==> lock.holder == Some(u)
    requires forall u :: u != t && Waiting(tasks, u, owner) ==> u in lock.waiters
    ensures LocksOk(tasks[t := task], locks[owner := lock])
  {
    var tasks', locks' := tasks[t := task], locks[owner := lock];
    forall o ensures LockOk(tasks', LockFor(locks', o), o) {
      if o != owner {
        assert LockOk(tasks, LockFor(locks, o), o);
      }
    }
    forall u | u in tasks' ensures TaskOk(tasks'[u], locks', u) {
      if u != t {
        assert TaskOk(tasks[u], locks, u);
        if tasks[u].Active? || tasks[u].Queued? {
          assert Holding(tasks, u, tasks[u].job.owner) || Waiting(tasks, u, tasks[u].job.owner);
        }
      }
    }
  }

  lemma MoveKeepsLocks(tasks: Tasks, locks: Locks, t: nat, task: Task)
    requires LocksOk(tasks, locks)
    requires if t in tasks then tasks[t].Active? && task.Active? && task.job == tasks[t].job else task.Turned?
    ensures LocksOk(tasks[t := task], locks)
  {
    var tasks' := tasks[t := task];
    forall o ensures LockOk(tasks', LockFor(locks, o), o) {
      assert LockOk(tasks, LockFor(locks, o), o);
    }
    forall u | u in tasks' ensures TaskOk(tasks'[u], locks, u) {
      if u in tasks { assert TaskOk(tasks[u], locks, u); }
    }
  }

  lemma StartKeepsLocks(tasks: Tasks, locks: Locks, t: nat, task: Task, waiters: seq<nat>)
    requires LocksOk(tasks, locks) && task.Active?
    requires LockFor(locks, task.job.owner).holder == None
    requires if t in tasks
             then Waiting(tasks, t, task.job.owner) && LockFor(locks, task.job.owner).waiters == [t] + waiters
             else LockFor(locks, task.job.owner).waiters == waiters == []
    ensures LocksOk(tasks[t := task], locks[task.job.owner := Lock(Some(t), waiters)])
  {
    var owner := task.job.owner;
    var current := LockFor(locks, owner);
    assert LockOk(tasks, current, owner);
    forall u | u != t && u in tasks ensures !Holding(tasks, u, owner) { assert TaskOk(tasks[u], locks, u); }
    forall u | u != t && Waiting(tasks, u, owner) ensures u in waiters { assert TaskOk(tasks[u], locks, u); }
    forall i | 0 <= i < |waiters| ensures waiters[i] != t && Waiting(tasks, waiters[i], owner) {
      assert current.waiters[i + 1] == waiters[i] && current.waiters[0] == t;
    }
    forall i, j | 0 <= i < j < |waiters| ensures waiters[i] != waiters[j] {
      assert current.waiters[i + 1] != current.waiters[j + 1];
    }
    LocksOkAfter(tasks, locks, t, task, owner, Lock(Some(t), waiters));
  }

  lemma EnqueueKeepsLocks(tasks: Tasks, locks: Locks, t: nat, task: Task)
    requires LocksOk(tasks, locks) && task.Queued? && t !in tasks
    ensures var lock := LockFor(locks, task.job.owner);
            LocksOk(tasks[t := task], locks[task.job.owner := lock.(waiters := lock.waiters + [t])])
  {
    var owner := task.job.owner;
    var lock := LockFor(locks, owner);
    assert LockOk(tasks, lock, owner);
    forall u | u != t && (Holding(tasks, u, owner) || Waiting(tasks, u, owner))
      ensures TaskOk(tasks[u], locks, u) {}
    LocksOkAfter(tasks, locks, t, task, owner, lock.(waiters := lock.waiters + [t]));
  }

  lemma FinishKeepsLocks(tasks: Tasks, locks: Locks, t: nat, task: Task)
    requires LocksOk(tasks, locks) && task.Answered?
    requires Holding(tasks, t, task.job.owner)
    ensures var lock := LockFor(locks, task.job.owner);
            LocksOk(tasks[t := task], locks[task.job.owner := lock.(holder := None)])
  {
    var owner := task.job.owner;
    var lock := LockFor(locks, owner);
    assert LockOk(tasks, lock, owner) && TaskOk(tasks[t], locks, t);
    forall u | u != t && u in tasks ensures !Holding(tasks, u, owner) { assert TaskOk(tasks[u], locks, u); }
    forall u | u != t && Waiting(tasks, u, owner) ensures u in lock.waiters { assert TaskOk(tasks[u], locks, u); }
    LocksOkAfter(tasks, locks, t, task, owner, lock.(holder := None));
  }

  lemma StepKeepsLocks(s: State, step: Step)
    requires LocksOk(s.tasks, s.locks) && Ready(s, step)
    ensures LocksOk(Do(s, step).tasks, Do(s, step).locks)
  {
    var t, task := step.tid, NextTask(s, step);
    if Starts(s, step).Some? {
      var waiters := LockFor(s.locks, task.job.owner).waiters;
      if step.Wake? { assert waiters == [t] + waiters[1..]; }
      StartKeepsLocks(s.tasks, s.locks, t, task, if step.Wake? then waiters[1..] else waiters);
    } else if step.Arrive? && step.verdict.Call? {
      EnqueueKeepsLocks(s.tasks, s.locks, t, task);
    } else if Answers(s, step) {
      FinishKeepsLocks(s.tasks, s.locks, t, task);
    } else {
      MoveKeepsLocks(s.tasks, s.locks, t, task);
    }
  }

  /** Two tasks past the queue for one owner are the same task. */
  lemma OneCallPerOwner(s: State, t: nat, u: nat, owner: Name)
    requires LocksOk(s.tasks, s.locks)
    requires Holding(s.tasks, t, owner) && Holding(s.tasks, u, owner)
    ensures t == u
  {
    assert TaskOk(s.tasks[t], s.locks, t) && TaskOk(s.tasks[u], s.locks, u);
  }

  // ---------------------------------------------------------------- linearization

  /** The serial machine: run the logged operations one at a time, in the order in which they
      took their lock, skipping those whose change never took effect. */
  function SerialAt(log: seq<Entry>, r: Resource, start: Option<R.RRset>): Option<R.RRset> {
    if log == [] then start
    else SerialStep(log[|log| - 1], r, SerialAt(log[..|log| - 1], r, start))
  }

  function SerialStep(e: Entry, r: Resource, before: Option<R.RRset>): Option<R.RRset> {
    if e.effect == Applied && ResourceOf(e.job) == r then AloneFor(e.job, before) else before
  }

  lemma ResourceHasOwner(job: Job)
    ensures ResourceOf(job).owner == job.owner
  {
  }

  /** Only the newest entry of an owner is decided, and deciding it acts on the serial run as
      if it ran last. */
  lemma {:induction false} SerialDecide(log: seq<Entry>, i: nat, e': Entry, r: Resource, start: Option<R.RRset>)
    requires i < |log| && log[i].effect == Undecided && e'.job == log[i].job
    requires forall j :: i < j < |log| ==> log[j].job.owner != log[i].job.owner
    ensures SerialAt(log[i := e'], r, start) == SerialStep(e', r, SerialAt(log, r, start))
  {
    var n := |log| - 1;
    var log', last := log[i := e'], log[|log| - 1];
    if i == n {
      assert log'[..n] == log[..n];
    } else {
      assert log'[..n] == log[..n][i := e'];
      SerialDecide(log[..n], i, e', r, start);
      ResourceHasOwner(last.job);
      ResourceHasOwner(e'.job);
      if ResourceOf(last.job) == r { assert ResourceOf(e'.job) != r; }
    }
  }

  predicate OutcomeFits(job: Job, ok: bool, effect: Effect) {
    effect != Undecided && (ok && MustTakeEffect(job) ==> effect == Applied)
  }

  /** What the history knows of a task past the queue. */
  ghost predicate SlotOk(task: Task, log: seq<Entry>, t: nat) {
    match task
    case Active(job, slot, phase) =>
      && slot < |log| && log[slot].tid == t && log[slot].job == job
      && (match phase
          case Reading | Changing(_) => log[slot].effect == Undecided
          case Confirming => log[slot].effect == Applied
          case Returned(ok) => OutcomeFits(job, ok, log[slot].effect)
          case Auditing(ok) => OutcomeFits(job, ok, log[slot].effect))
      && (forall j :: slot < j < |log| ==> log[j].job.owner != job.owner)
    case Answered(job, slot, ok, rcode, _) =>
      && slot < |log| && log[slot].tid == t && log[slot].job == job
      && OutcomeFits(job, ok, log[slot].effect)
      && rcode == RcodeOf(job, ok)
    case _ => true
  }

  /** Every entry of the history belongs to the task that sits in its slot. */
  ghost predicate EntryOk(tasks: Tasks, e: Entry, i: nat) {
    e.tid in tasks && (tasks[e.tid].Active? || tasks[e.tid].Answered?) && tasks[e.tid].slot == i
  }

  ghost predicate LogOk(tasks: Tasks, log: seq<Entry>) {
    && (forall t :: t in tasks ==> SlotOk(tasks[t], log, t))
    && (forall i :: 0 <= i < |log| ==> EntryOk(tasks, log[i], i))
  }

  /** The records are what the serial run makes of them, and a change in flight is still the
      one that its record calls for. */
  ghost predicate Linear(s: State, remote0: Remote) {
    && (forall r :: Content(s.remote, r) == SerialAt(s.log, r, Content(remote0, r)))
    && (forall t :: t in s.tasks ==> PlanStands(s.tasks[t], s.remote))
  }

  ghost predicate PlanStands(task: Task, remote: Remote) {
    task.Active? && task.phase.Changing? ==>
      PlanFor(task.job, Content(remote, ResourceOf(task.job))) == Some(task.phase.change)
  }

  lemma StartKeepsLog(s: State, step: Step)
    requires LocksOk(s.tasks, s.locks) && LogOk(s.tasks, s.log)
    requires Ready(s, step) && Starts(s, step).Some?
    ensures LogOk(Do(s, step).tasks, Do(s, step).log)
  {
    var tasks, log, t := Do(s, step).tasks, Do(s, step).log, step.tid;
    forall u | u in tasks ensures SlotOk(tasks[u], log, u) {
      if u != t {
        assert SlotOk(s.tasks[u], s.log, u) && TaskOk(s.tasks[u], s.locks, u);
      }
    }
    forall i | 0 <= i < |log| ensures EntryOk(tasks, log[i], i) {
      if i < |s.log| { assert EntryOk(s.tasks, s.log[i], i); }
    }
  }

  lemma SettleKeepsLog(tasks: Tasks, log: seq<Entry>, t: nat, task: Task, effect: Effect)
    requires LogOk(tasks, log) && t in tasks && tasks[t].Active? && task.Active?
    requires task == tasks[t].(phase := task.phase)
    requires tasks[t].slot < |log|
    requires if task.phase.Returned? then OutcomeFits(task.job, task.phase.ok, effect)
             else task.phase == Confirming && effect == Applied
    ensures var slot := task.slot;
            LogOk(tasks[t := task], log[slot := log[slot].(effect := effect)])
  {
    var tasks', log' := tasks[t := task], log[task.slot := log[task.slot].(effect := effect)];
    assert SlotOk(tasks[t], log, t);
    forall u | u in tasks' ensures SlotOk(tasks'[u], log', u) {
      assert SlotOk(tasks[u], log, u);
    }
    forall i | 0 <= i < |log'| ensures EntryOk(tasks', log'[i], i) {
      assert EntryOk(tasks, log[i], i);
    }
  }

  lemma TaskKeepsLog(tasks: Tasks, log: seq<Entry>, t: nat, task: Task)
    requires LogOk(tasks, log) && SlotOk(task, log, t)
    requires t in tasks && (tasks[t].Active? || tasks[t].Answered?) ==>
               (task.Active? || task.Answered?) && task.slot == tasks[t].slot
    ensures LogOk(tasks[t := task], log)
  {
    var tasks' := tasks[t := task];
    forall u | u in tasks' ensures SlotOk(tasks'[u], log, u) {
      if u != t { assert SlotOk(tasks[u], log, u); }
    }
    forall i | 0 <= i < |log| ensures EntryOk(tasks', log[i], i) {
      assert EntryOk(tasks, log[i], i);
    }
  }

  lemma StepKeepsLog(s: State, step: Step)
    requires LocksOk(s.tasks, s.locks) && LogOk(s.tasks, s.log) && Ready(s, step)
    ensures LogOk(Do(s, step).tasks, Do(s, step).log)
  {
    var t, task := step.tid, NextTask(s, step);
    if t in s.tasks { assert SlotOk(s.tasks[t], s.log, t); }
    if Starts(s, step).Some? {
      StartKeepsLog(s, step);
    } else if Settles(step).Some? {
      SettleKeepsLog(s.tasks, s.log, t, task, Settles(step).value);
    } else {
      TaskKeepsLog(s.tasks, s.log, t, task);
    }
  }

  lemma AppendUndecided(log: seq<Entry>, e: Entry, r: Resource, start: Option<R.RRset>)
    requires e.effect == Undecided
    ensures SerialAt(log + [e], r, start) == SerialAt(log, r, start)
  {
    assert (log + [e])[..|log|] == log;
  }

  lemma StartKeepsLinear(s: State, step: Step, remote0: Remote)
    requires Linear(s, remote0) && Ready(s, step) && Starts(s, step).Some?
    ensures Linear(Do(s, step), remote0)
  {
    var s' := Do(s, step);
    forall r ensures Content(s'.remote, r) == SerialAt(s'.log, r, Content(remote0, r)) {
      AppendUndecided(s.log, Entry(step.tid, Starts(s, step).value, Undecided), r, Content(remote0, r));
    }
    forall u | u in s'.tasks ensures PlanStands(s'.tasks[u], s'.remote) {
      if u != step.tid { assert PlanStands(s.tasks[u], s.remote); }
    }
  }

  /** What a settling step does to the record is what the operation does alone. */
  lemma SettleEffect(s: State, step: Step)
    requires Enabled(s, step) && Settles(step).Some?
    requires PlanStands(s.tasks[step.tid], s.remote)
    ensures var r, job := ResourceOf(s.tasks[step.tid].job), s.tasks[step.tid].job;
            Content(NextRemote(s, step), r) ==
              if Settles(step) == Some(Applied) then AloneFor(job, Content(s.remote, r)) else Content(s.remote, r)
    ensures forall r :: r != ResourceOf(s.tasks[step.tid].job) ==>
              Content(NextRemote(s, step), r) == Content(s.remote, r)
  {
  }

  lemma SettleKeepsLinear(s: State, step: Step, remote0: Remote)
    requires LocksOk(s.tasks, s.locks) && LogOk(s.tasks, s.log) && Linear(s, remote0)
    requires Enabled(s, step) && Settles(step).Some?
    ensures Linear(Do(s, step), remote0)
  {
    var s', t := Do(s, step), step.tid;
    var job := s.tasks[t].job;
    assert SlotOk(s.tasks[t], s.log, t) && PlanStands(s.tasks[t], s.remote);
    SettleEffect(s, step);
    forall r ensures Content(s'.remote, r) == SerialAt(s'.log, r, Content(remote0, r)) {
      SerialDecide(s.log, s.tasks[t].slot, s'.log[s.tasks[t].slot], r, Content(remote0, r));
    }
    forall u | u in s'.tasks ensures PlanStands(s'.tasks[u], s'.remote) {
      if u != t {
        assert PlanStands(s.tasks[u], s.remote);
        if s.tasks[u].Active? && ResourceOf(s.tasks[u].job) == ResourceOf(job) {
          assert ResourceOf(job).owner == job.owner == s.tasks[u].job.owner;
          OneCallPerOwner(s, t, u, job.owner);
        }
      }
    }
  }

  lemma TaskKeepsLinear(s: State, step: Step, remote0: Remote)
    requires Linear(s, remote0) && Enabled(s, step) && Starts(s, step) == None && Settles(step) == None
    ensures Linear(Do(s, step), remote0)
  {
    var s' := Do(s, step);
    forall u | u in s'.tasks ensures PlanStands(s'.tasks[u], s'.remote) {
      if u != step.tid { assert PlanStands(s.tasks[u], s.remote); }
    }
  }

  lemma StepKeepsLinear(s: State, step: Step, remote0: Remote)
    requires LocksOk(s.tasks, s.locks) && LogOk(s.tasks, s.log) && Linear(s, remote0) && Enabled(s, step)
    ensures Linear(Do(s, step), remote0)
  {
    if Starts(s, step).Some? {
      StartKeepsLinear(s, step, remote0);
    } else if Settles(step).Some? {
      SettleKeepsLinear(s, step, remote0);
    } else {
      TaskKeepsLinear(s, step, remote0);
    }
  }

  // ---------------------------------------------------------------- conservation

  /** What a task can be counted as. */
  datatype Class =
    | ReturnedC              // the provider call is over, not yet counted
    | RecordedC              // counted
    | FinishedC              // either
    | AuditingC              // its audit row is being written
    | WrittenC               // its audit row was written
    | AuditFailedC           // its audit row was lost
    | LabelledC(l: Label)
    | RowC(row: AuditRow)
    | OkC                    // counted, and its call returned
    | ErrorC                 // counted, a present whose call raised
    | SuppressedC            // counted, a cleanup whose call raised

  predicate IsRecorded(task: Task) {
    task.Answered? || (task.Active? && task.phase.Auditing?)
  }

  function OkOf(task: Task): bool
    requires IsRecorded(task)
  {
    if task.Active? then task.phase.ok else task.ok
  }

  /** The provider type of a call, as metrics and audit name it. */
  predicate NamesProvider(name: string, provider: Provider) {
    if provider.AmazonRoute53? then name == "route53" else name == "hurricane"
  }

  /** The label tells what the call was and how it ended. */
  predicate LabelFits(l: Label, job: Job, ok: bool) {
    && NamesProvider(l.provider, job.route.provider) && l.action == job.op.action
    && (l.result == "ok" <==> ok)
    && (l.result == "error" <==> !ok && job.op.action == R.Present)
    && (l.result == "suppressed" <==> !ok && job.op.action == R.Cleanup)
  }

  /** The audit row tells the zone, the record, what the call was and how it really ended. */
  predicate RowFits(row: AuditRow, job: Job, ok: bool) {
    && row.zone == job.route.zone && row.owner == job.owner && row.action == job.op.action
    && NamesProvider(row.provider, job.route.provider)
    && (row.result == "ok" <==> ok) && (row.result == "error" <==> !ok)
  }

  lemma LabelFitsOne(l: Label, job: Job, ok: bool)
    ensures LabelFits(l, job, ok) <==> l == LabelOf(job, ok)
  {
  }

  lemma RowFitsOne(row: AuditRow, job: Job, ok: bool)
    ensures RowFits(row, job, ok) <==> row == RowOf(job, ok)
  {
  }

  predicate In(c: Class, task: Task) {
    match c
    case ReturnedC => task.Active? && task.phase.Returned?
    case RecordedC => IsRecorded(task)
    case FinishedC => IsRecorded(task) || (task.Active? && task.phase.Returned?)
    case AuditingC => task.Active? && task.phase.Auditing?
    case WrittenC => task.Answered? && task.audit == Written
    case AuditFailedC => task.Answered? && task.audit == Failed
    case LabelledC(l) => IsRecorded(task) && LabelFits(l, task.job, OkOf(task))
    case RowC(row) => task.Answered? && task.audit == Written && RowFits(row, task.job, task.ok)
    case OkC => IsRecorded(task) && OkOf(task)
    case ErrorC => IsRecorded(task) && !OkOf(task) && task.job.op.action == R.Present
    case SuppressedC => IsRecorded(task) && !OkOf(task) && task.job.op.action == R.Cleanup
  }

  ghost function Members(tasks: Tasks, c: Class): set<nat> {
    set t | t in tasks && In(c, tasks[t])
  }

  ghost function Count(tasks: Tasks, c: Class): nat {
    |Members(tasks, c)|
  }

  lemma CardinalityAfter(before: set<nat>, after: set<nat>, t: nat)
    requires forall u :: u != t ==> (u in before <==> u in after)
    ensures |after| == |before| - (if t in before then 1 else 0) + (if t in after then 1 else 0)
  {
    var others := before - {t};
    assert before == if t in before then others + {t} else others;
    assert after == if t in after then others + {t} else others;
  }

  lemma CountUpdate(tasks: Tasks, t: nat, task: Task, c: Class)
    ensures Count(tasks[t := task], c) ==
              Count(tasks, c) - (if t in tasks && In(c, tasks[t]) then 1 else 0) + (if In(c, task) then 1 else 0)
  {
    CardinalityAfter(Members(tasks, c), Members(tasks[t := task], c), t);
  }

  /** Every counter and row is accounted for, label by label and row by row. */
  ghost predicate Conserved(s: State) {
    && (forall l :: s.challenges[l] == Count(s.tasks, LabelledC(l)))
    && |s.challenges| == Count(s.tasks, RecordedC)
    && (forall row :: s.rows[row] == Count(s.tasks, RowC(row)))
    && |s.rows| == Count(s.tasks, WrittenC)
    && s.auditFailures == Count(s.tasks, AuditFailedC)
    && (forall t :: t in s.tasks ==> AuditFits(s.tasks[t], s.sink))
  }

  ghost predicate AuditFits(task: Task, sink: bool) {
    && (task.Active? && task.phase.Auditing? ==> sink)
    && (task.Answered? ==> (task.audit == NoSink <==> !sink))
  }

  /** Only Record counts: it adds the label of a task that was not counted yet. */
  lemma StepCounts(s: State, step: Step)
    requires Ready(s, step)
    ensures var t, task := step.tid, NextTask(s, step);
            if step.Record? then
              && IsRecorded(task) && t in s.tasks && !IsRecorded(s.tasks[t])
              && NextChallenges(s, step) == s.challenges + multiset{LabelOf(task.job, OkOf(task))}
            else
              && NextChallenges(s, step) == s.challenges
              && (t in s.tasks && IsRecorded(s.tasks[t]) <==> IsRecorded(task))
              && (IsRecorded(task) ==> task.job == s.tasks[t].job && OkOf(task) == OkOf(s.tasks[t]))
  {
  }

  /** Only the end of an audit write adds a row or a lost row, for a task not yet answered. */
  lemma StepAudits(s: State, step: Step)
    requires Ready(s, step)
    ensures var t, task := step.tid, NextTask(s, step);
            && !(t in s.tasks && s.tasks[t].Answered?)
            && (In(WrittenC, task) <==> step.AuditDone? && step.written)
            && (In(AuditFailedC, task) <==> step.AuditDone? && !step.written)
            && NextRows(s, step) == (if In(WrittenC, task) then s.rows + multiset{RowOf(task.job, task.ok)} else s.rows)
  {
  }

  lemma StepKeepsLabelCounts(s: State, step: Step, l: Label)
    requires Ready(s, step)
    requires s.challenges[l] == Count(s.tasks, LabelledC(l)) && |s.challenges| == Count(s.tasks, RecordedC)
    ensures var s' := Do(s, step);
            s'.challenges[l] == Count(s'.tasks, LabelledC(l)) && |s'.challenges| == Count(s'.tasks, RecordedC)
  {
    StepCounts(s, step);
    var task := NextTask(s, step);
    if IsRecorded(task) { LabelFitsOne(l, task.job, OkOf(task)); }
    CountUpdate(s.tasks, step.tid, task, LabelledC(l));
    CountUpdate(s.tasks, step.tid, NextTask(s, step), RecordedC);
  }

  lemma StepKeepsRowCounts(s: State, step: Step, row: AuditRow)
    requires Ready(s, step)
    requires s.rows[row] == Count(s.tasks, RowC(row)) && |s.rows| == Count(s.tasks, WrittenC)
    requires s.auditFailures == Count(s.tasks, AuditFailedC)
    ensures var s' := Do(s, step);
            && s'.rows[row] == Count(s'.tasks, RowC(row)) && |s'.rows| == Count(s'.tasks, WrittenC)
            && s'.auditFailures == Count(s'.tasks, AuditFailedC)
  {
    StepAudits(s, step);
    if NextTask(s, step).Answered? { RowFitsOne(row, NextTask(s, step).job, NextTask(s, step).ok); }
    CountUpdate(s.tasks, step.tid, NextTask(s, step), RowC(row));
    CountUpdate(s.tasks, step.tid, NextTask(s, step), WrittenC);
    CountUpdate(s.tasks, step.tid, NextTask(s, step), AuditFailedC);
  }

  lemma StepKeepsAuditFits(s: State, step: Step, u: nat)
    requires Ready(s, step) && u in Do(s, step).tasks
    requires u in s.tasks ==> AuditFits(s.tasks[u], s.sink)
    ensures AuditFits(Do(s, step).tasks[u], Do(s, step).sink)
  {
    match step {
      case Arrive(_, _) =>
      case Wake(_) =>
      case ReadOk(_, _) =>
      case ReadFails(_) =>
      case Apply(_, _) =>
      case Lose(_) =>
      case Benign(_) =>
      case Confirm(_, _) =>
      case Record(_) =>
      case AuditDone(_, _) =>
    }
  }

  lemma StepConserves(s: State, step: Step)
    requires Conserved(s) && Ready(s, step)
    ensures Conserved(Do(s, step))
  {
    forall l ensures Do(s, step).challenges[l] == Count(Do(s, step).tasks, LabelledC(l)) {
      StepKeepsLabelCounts(s, step, l);
    }
    forall row ensures Do(s, step).rows[row] == Count(Do(s, step).tasks, RowC(row)) {
      StepKeepsRowCounts(s, step, row);
    }
    StepKeepsLabelCounts(s, step, Label("", R.Present, ""));
    StepKeepsRowCounts(s, step, AuditRow([], [], R.Present, "", ""));
    forall u | u in Do(s, step).tasks ensures AuditFits(Do(s, step).tasks[u], Do(s, step).sink) {
      StepKeepsAuditFits(s, step, u);
    }
  }

  // ---------------------------------------------------------------- first come, first served

  /** Who asked for `owner`'s lock, and who got it, in order. */
  function AskedFor(arrivals: seq<Arrival>, owner: Name): seq<nat> {
    if arrivals == [] then []
    else
      var before, a := AskedFor(arrivals[..|arrivals| - 1], owner), arrivals[|arrivals| - 1];
      if a.owner == owner then before + [a.tid] else before
  }

  function GotLock(log: seq<Entry>, owner: Name): seq<nat> {
    if log == [] then []
    else
      var before, e := GotLock(log[..|log| - 1], owner), log[|log| - 1];
      if e.job.owner == owner then before + [e.tid] else before
  }

  /** Those who asked are those who got the lock and then those who still wait, in order. */
  ghost predicate InOrder(arrivals: seq<Arrival>, log: seq<Entry>, waiters: seq<nat>, owner: Name) {
    AskedFor(arrivals, owner) == GotLock(log, owner) + waiters
  }

  ghost predicate Fifo(s: State, owner: Name) {
    InOrder(s.arrivals, s.log, WaitersOf(s.locks, owner), owner)
  }

  function WaitersOf(locks: map<Name, Lock>, owner: Name): seq<nat> {
    LockFor(locks, owner).waiters
  }

  lemma {:induction false} SettlingKeepsOrder(log: seq<Entry>, i: nat, effect: Effect, owner: Name)
    requires i < |log|
    ensures GotLock(log[i := log[i].(effect := effect)], owner) == GotLock(log, owner)
  {
    var n := |log| - 1;
    var log' := log[i := log[i].(effect := effect)];
    if i < n {
      assert log'[..n] == log[..n][i := log[i].(effect := effect)];
      SettlingKeepsOrder(log[..n], i, effect, owner);
    } else {
      assert log'[..n] == log[..n];
    }
  }

  lemma AskedForAppend(arrivals: seq<Arrival>, a: Arrival, owner: Name)
    ensures AskedFor(arrivals + [a], owner) ==
              if a.owner == owner then AskedFor(arrivals, owner) + [a.tid] else AskedFor(arrivals, owner)
  {
    assert (arrivals + [a])[..|arrivals|] == arrivals;
  }

  lemma GotLockAppend(log: seq<Entry>, e: Entry, owner: Name)
    ensures GotLock(log + [e], owner) ==
              if e.job.owner == owner then GotLock(log, owner) + [e.tid] else GotLock(log, owner)
  {
    assert (log + [e])[..|log|] == log;
  }

  lemma NewcomerKeepsOrder(arrivals: seq<Arrival>, log: seq<Entry>, e: Entry, waiters: seq<nat>, owner: Name)
    requires InOrder(arrivals, log, waiters, owner)
    requires e.job.owner == owner ==> waiters == []
    ensures InOrder(arrivals + [Arrival(e.tid, e.job.owner)], log + [e], waiters, owner)
  {
    AskedForAppend(arrivals, Arrival(e.tid, e.job.owner), owner);
    GotLockAppend(log, e, owner);
  }

  lemma WakingKeepsOrder(arrivals: seq<Arrival>, log: seq<Entry>, e: Entry, waiters: seq<nat>, owner: Name)
    requires InOrder(arrivals, log, if e.job.owner == owner then [e.tid] + waiters else waiters, owner)
    ensures InOrder(arrivals, log + [e], waiters, owner)
  {
    GotLockAppend(log, e, owner);
    if e.job.owner == owner {
      assert GotLock(log, owner) + ([e.tid] + waiters) == GotLock(log, owner) + [e.tid] + waiters;
    }
  }

  lemma QueuingKeepsOrder(arrivals: seq<Arrival>, log: seq<Entry>, a: Arrival, waiters: seq<nat>, owner: Name)
    requires InOrder(arrivals, log, waiters, owner)
    ensures InOrder(arrivals + [a], log, if a.owner == owner then waiters + [a.tid] else waiters, owner)
  {
    AskedForAppend(arrivals, a, owner);
    assert GotLock(log, owner) + (waiters + [a.tid]) == GotLock(log, owner) + waiters + [a.tid];
  }

  /** What a step does to the queue of `owner`. */
  lemma NextWaiters(s: State, step: Step, owner: Name)
    requires Ready(s, step)
    ensures var starts, waiters := Starts(s, step), WaitersOf(s.locks, owner);
            var waiters' := WaitersOf(NextLocks(s, step), owner);
            if starts.Some? && step.Wake? then
              waiters == if starts.value.owner == owner then [step.tid] + waiters' else waiters'
            else if starts.Some? then
              waiters' == waiters && (starts.value.owner == owner ==> waiters == [])
            else if step.Arrive? && step.verdict.Call? then
              waiters' == if step.verdict.job.owner == owner then waiters + [step.tid] else waiters
            else waiters' == waiters
  {
    if step.Wake? && s.tasks[step.tid].job.owner == owner {
      var waiters := WaitersOf(s.locks, owner);
      assert waiters == [step.tid] + waiters[1..];
    }
  }

  lemma StartKeepsFifo(s: State, step: Step, owner: Name, waiters': seq<nat>)
    requires Ready(s, step) && Fifo(s, owner) && Starts(s, step).Some?
              && waiters' == WaitersOf(NextLocks(s, step), owner)
    ensures InOrder(NextArrivals(s, step), NextLog(s, step), waiters', owner)
  {
    var e := Entry(step.tid, Starts(s, step).value, Undecided);
    NextWaiters(s, step, owner);
    if step.Wake? {
      WakingKeepsOrder(s.arrivals, s.log, e, waiters', owner);
    } else {
      NewcomerKeepsOrder(s.arrivals, s.log, e, waiters', owner);
    }
  }

  lemma NextLogKeepsOrder(s: State, step: Step, owner: Name)
    requires Ready(s, step) && Starts(s, step) == None
    ensures GotLock(NextLog(s, step), owner) == GotLock(s.log, owner)
  {
    if Settles(step).Some? && s.tasks[step.tid].slot < |s.log| {
      SettlingKeepsOrder(s.log, s.tasks[step.tid].slot, Settles(step).value, owner);
    }
  }

  lemma StepKeepsFifo(s: State, step: Step, owner: Name)
    requires Ready(s, step) && Fifo(s, owner)
    ensures InOrder(NextArrivals(s, step), NextLog(s, step), WaitersOf(NextLocks(s, step), owner), owner)
  {
    if Starts(s, step).Some? {
      StartKeepsFifo(s, step, owner, WaitersOf(NextLocks(s, step), owner));
    } else {
      NextWaiters(s, step, owner);
      NextLogKeepsOrder(s, step, owner);
      if step.Arrive? && step.verdict.Call? {
        var a := Arrival(step.tid, step.verdict.job.owner);
        QueuingKeepsOrder(s.arrivals, s.log, a, WaitersOf(s.locks, owner), owner);
      }
    }
  }

  // ---------------------------------------------------------------- every run

  /** The run `steps` of a dispatcher that starts idle over the records `remote` ends in `s`. */
  ghost predicate Reaches(sink: bool, remote: Remote, steps: seq<Step>, s: State) {
    Legal(Initial(sink, remote), steps) && After(Initial(sink, remote), steps) == s
  }

  ghost predicate Sound(s: State, remote0: Remote) {
    && LocksOk(s.tasks, s.locks) && LogOk(s.tasks, s.log) && Linear(s, remote0) && Conserved(s)
    && forall owner :: Fifo(s, owner)
  }

  lemma InitiallySound(sink: bool, remote: Remote)
    ensures Sound(Initial(sink, remote), remote)
  {
    var s := Initial(sink, remote);
    forall c ensures Count(s.tasks, c) == 0 { assert Members(s.tasks, c) == {}; }
  }

  lemma {:induction false} EveryRunIsSound(sink: bool, remote: Remote, steps: seq<Step>)
    requires Legal(Initial(sink, remote), steps)
    ensures Sound(After(Initial(sink, remote), steps), remote)
  {
    var s0 := Initial(sink, remote);
    if steps == [] {
      InitiallySound(sink, remote);
    } else {
      var before, step := steps[..|steps| - 1], steps[|steps| - 1];
      EveryRunIsSound(sink, remote, before);
      var s := After(s0, before);
      StepKeepsLocks(s, step);
      StepKeepsLog(s, step);
      StepKeepsLinear(s, step, remote);
      StepConserves(s, step);
      forall owner ensures Fifo(Do(s, step), owner) { StepKeepsFifo(s, step, owner); }
    }
  }

  /** However the tasks interleave and whatever fails, every record is at every
      moment what the started operations make of it one at a time, in lock order; per owner
      that order is the order of arrival; and one provider call per owner is in flight. */
  lemma EveryInterleavingIsSerial(sink: bool, remote: Remote, steps: seq<Step>, s: State, r: Resource)
    requires Reaches(sink, remote, steps, s)
    ensures Content(s.remote, r) == SerialAt(s.log, r, Content(remote, r))
    ensures GotLock(s.log, r.owner) <= AskedFor(s.arrivals, r.owner)
    ensures forall t, u :: Holding(s.tasks, t, r.owner) && Holding(s.tasks, u, r.owner) ==> t == u
  {
    EveryRunIsSound(sink, remote, steps);
    assert Fifo(s, r.owner);
    forall t, u | Holding(s.tasks, t, r.owner) && Holding(s.tasks, u, r.owner) ensures t == u {
      OneCallPerOwner(s, t, u, r.owner);
    }
  }

  /** No record set yet, or one with values of its own: anything but an alias. */
  predicate IsPlain(existing: Option<R.RRset>) {
    existing == None || (existing.value.ttl.Some? && existing.value.values != [])
  }

  lemma PlannedChangeFits(op: R.Operation, existing: Option<R.RRset>, change: R.Change)
    requires R.Plan(op, existing) == Some(change)
    ensures change.Delete? ==> existing.Some? && existing.value.values == change.values
    ensures IsPlain(existing) ==> R.Execute(existing, change).Some?
  {
    if IsPlain(existing) { R.ChangesAreWellFormed(op, existing); }
  }

  /** Under the lock a DELETE always echoes the record set as it still is, so Route 53 never
      rejects the creation or the change of a plain record set: only the network can lose one. */
  lemma ChangesInFlightStillFit(sink: bool, remote: Remote, steps: seq<Step>, s: State, t: nat)
    requires Reaches(sink, remote, steps, s)
    requires InPhase(s, t) && s.tasks[t].phase.Changing? && s.tasks[t].job.route.provider.AmazonRoute53?
    ensures var existing, change := Content(s.remote, ResourceOf(s.tasks[t].job)), s.tasks[t].phase.change;
            && (change.Delete? ==> existing.Some? && existing.value.values == change.values)
            && (IsPlain(existing) ==> R.Execute(existing, change).Some?)
  {
    EveryRunIsSound(sink, remote, steps);
    assert PlanStands(s.tasks[t], s.remote);
    PlannedChangeFits(s.tasks[t].job.op, Content(s.remote, ResourceOf(s.tasks[t].job)), s.tasks[t].phase.change);
  }

  // ---------------------------------------------------------------- presented tokens stay

  /** The logged operation removes `token` from record `r`: it names it, or names nothing. */
  ghost predicate Removes(e: Entry, r: Resource, token: string) {
    && e.effect == Applied && ResourceOf(e.job) == r
    && e.job.op.action == R.Cleanup && (e.job.op.tokens == [] || token in e.job.op.tokens)
  }

  ghost predicate Holds(content: Option<R.RRset>, token: string) {
    R.Quote(token) in R.RecordValues(content)
  }

  lemma OthersKeepToken(op: R.Operation, existing: Option<R.RRset>, token: string)
    requires Holds(existing, token)
    requires op.action == R.Cleanup ==> op.tokens != [] && token !in op.tokens
    ensures Holds(R.Alone(op, existing), token)
  {
    if op.action == R.Present {
      R.PresentedTokens(op, existing);
    } else {
      R.WithoutIsDifference(R.RecordValues(existing), R.QuoteAll(op.tokens));
      R.QuotedIn(token, op.tokens);
    }
  }

  /** In a serial run a presented token stays until an operation that removes it. */
  lemma {:induction false} SerialKeepsToken(log: seq<Entry>, slot: nat, r: Resource, start: Option<R.RRset>,
                                            token: string)
    requires slot < |log| && log[slot].effect == Applied && ResourceOf(log[slot].job) == r && r.Rrset?
    requires log[slot].job.op.action == R.Present && token in log[slot].job.op.tokens
    requires forall i :: slot < i < |log| ==> !Removes(log[i], r, token)
    ensures Holds(SerialAt(log, r, start), token)
  {
    var n := |log| - 1;
    var before, e := SerialAt(log[..n], r, start), log[n];
    if slot == n {
      R.PresentedTokens(e.job.op, before);
    } else {
      assert log[..n][slot] == log[slot];
      SerialKeepsToken(log[..n], slot, r, start, token);
      assert !Removes(e, r, token);
      if e.effect == Applied && ResourceOf(e.job) == r { OthersKeepToken(e.job.op, before, token); }
    }
  }

  lemma StepKeepsAnswered(s: State, step: Step, t: nat)
    requires Ready(s, step) && t in s.tasks && s.tasks[t].Answered?
    ensures t in Do(s, step).tasks && Do(s, step).tasks[t] == s.tasks[t]
  {
  }

  lemma {:induction false} AnsweredStays(s0: State, steps: seq<Step>, n: nat, t: nat)
    requires Legal(s0, steps) && n <= |steps| && Legal(s0, steps[..n])
    requires t in After(s0, steps[..n]).tasks && After(s0, steps[..n]).tasks[t].Answered?
    ensures t in After(s0, steps).tasks && After(s0, steps).tasks[t] == After(s0, steps[..n]).tasks[t]
  {
    if n < |steps| {
      var before := steps[..|steps| - 1];
      assert before[..n] == steps[..n];
      AnsweredStays(s0, before, n, t);
      StepKeepsAnswered(After(s0, before), steps[|steps| - 1], t);
    } else {
      assert steps[..n] == steps;
    }
  }

  lemma AnsweredTokenIsHeld(now: State, remote: Remote, t: nat, token: string)
    requires LogOk(now.tasks, now.log) && Linear(now, remote)
    requires t in now.tasks && now.tasks[t].Answered? && now.tasks[t].rcode == NOERROR
    requires now.tasks[t].job.op.action == R.Present && token in now.tasks[t].job.op.tokens
    requires now.tasks[t].job.route.provider.AmazonRoute53?
    ensures var r := ResourceOf(now.tasks[t].job);
            Holds(Content(now.remote, r), token) ||
            exists i :: now.tasks[t].slot < i < |now.log| && Removes(now.log[i], r, token)
  {
    var task := now.tasks[t];
    assert SlotOk(task, now.log, t);
    var r := ResourceOf(task.job);
    if forall i :: task.slot < i < |now.log| ==> !Removes(now.log[i], r, token) {
      SerialKeepsToken(now.log, task.slot, r, Content(remote, r), token);
    }
  }

  /** A Route 53 present of `token` has been answered NOERROR. */
  ghost predicate PresentAnswered(s: State, t: nat, token: string) {
    && t in s.tasks && s.tasks[t].Answered? && s.tasks[t].rcode == NOERROR
    && s.tasks[t].job.op.action == R.Present && token in s.tasks[t].job.op.tokens
    && s.tasks[t].job.route.provider.AmazonRoute53?
  }

  /** The run `steps` has the run `earlier` behind it. */
  ghost predicate Continues(s0: State, earlier: seq<Step>, steps: seq<Step>) {
    earlier <= steps && Legal(s0, earlier) && Legal(s0, steps)
  }

  /** Once a Route 53 present of a token is answered NOERROR, the token is in the record set at
      every later moment of every run, unless a cleanup of that record that took its lock later
      and took effect names the token or names nothing. */
  lemma PresentedTokenStays(sink: bool, remote: Remote, earlier: seq<Step>, before: State, steps: seq<Step>, now: State,
                            t: nat, token: string)
    requires Reaches(sink, remote, earlier, before) && Reaches(sink, remote, steps, now) && earlier <= steps
    requires PresentAnswered(before, t, token)
    ensures var task := before.tasks[t];
            var r := ResourceOf(task.job);
            || Holds(Content(now.remote, r), token)
            || exists i :: task.slot < i < |now.log| && Removes(now.log[i], r, token)
  {
    assert steps[..|earlier|] == earlier;
    AnsweredStays(Initial(sink, remote), steps, |earlier|, t);
    EveryRunIsSound(sink, remote, steps);
    AnsweredTokenIsHeld(now, remote, t, token);
  }

  /** The logged operation adds `token` to record `r`. */
  ghost predicate Adds(e: Entry, r: Resource, token: string) {
    && e.effect == Applied && ResourceOf(e.job) == r
    && e.job.op.action == R.Present && token in e.job.op.tokens
  }

  /** Some operation added the token, or it was there to begin with, and none removed it since. */
  ghost predicate Stands(log: seq<Entry>, r: Resource, token: string, atStart: bool) {
    || (exists i :: 0 <= i < |log| && Adds(log[i], r, token)
                    && forall j :: i < j < |log| ==> !Removes(log[j], r, token))
    || (atStart && forall j :: 0 <= j < |log| ==> !Removes(log[j], r, token))
  }

  lemma StandsAppend(log: seq<Entry>, e: Entry, r: Resource, token: string, atStart: bool)
    ensures Stands(log + [e], r, token, atStart) <==>
            Adds(e, r, token) || (Stands(log, r, token, atStart) && !Removes(e, r, token))
  {
    var log' := log + [e];
    forall j | 0 <= j < |log| ensures log'[j] == log[j] {}
    if Adds(e, r, token) { assert Adds(log'[|log|], r, token); }
    if Stands(log, r, token, atStart) && !Removes(e, r, token) {
      if i :| 0 <= i < |log| && Adds(log[i], r, token) && forall j :: i < j < |log| ==> !Removes(log[j], r, token) {
        assert Adds(log'[i], r, token) && forall j :: i < j < |log'| ==> !Removes(log'[j], r, token);
      }
    }
    if Stands(log', r, token, atStart) && !Adds(e, r, token) {
      assert log'[|log|] == e;
      if i :| 0 <= i < |log'| && Adds(log'[i], r, token) && forall j :: i < j < |log'| ==> !Removes(log'[j], r, token) {
        assert Adds(log[i], r, token) && forall j :: i < j < |log| ==> !Removes(log[j], r, token) by {
          forall j | i < j < |log| ensures !Removes(log[j], r, token) { assert !Removes(log'[j], r, token); }
        }
      } else {
        forall j | 0 <= j < |log| ensures !Removes(log[j], r, token) { assert !Removes(log'[j], r, token); }
      }
    }
  }

  /** One operation alone on a plain record: which tokens it leaves, and that it stays plain. */
  lemma AloneOnPlain(op: R.Operation, existing: Option<R.RRset>, token: string)
    requires IsPlain(existing)
    ensures IsPlain(R.Alone(op, existing))
    ensures Holds(R.Alone(op, existing), token) <==>
            if op.action == R.Present then Holds(existing, token) || token in op.tokens
            else Holds(existing, token) && op.tokens != [] && token !in op.tokens
  {
    if op.action == R.Present {
      R.PresentedTokens(op, existing);
      R.MergeIsUnion(R.RecordValues(existing), R.QuoteAll(op.tokens));
    } else if existing.Some? {
      R.CleanupIsDifference(op, existing);
    }
  }

  lemma {:induction false} SerialIsExact(log: seq<Entry>, r: Resource, start: Option<R.RRset>, token: string)
    requires r.Rrset? && IsPlain(start)
    ensures IsPlain(SerialAt(log, r, start))
    ensures Holds(SerialAt(log, r, start), token) <==> Stands(log, r, token, Holds(start, token))
  {
    if log != [] {
      var before, e := log[..|log| - 1], log[|log| - 1];
      assert log == before + [e];
      SerialIsExact(before, r, start, token);
      StandsAppend(before, e, r, token, Holds(start, token));
      if e.effect == Applied && ResourceOf(e.job) == r { AloneOnPlain(e.job.op, SerialAt(before, r, start), token); }
    }
  }

  /** At every moment of every run, whatever interleaves and fails, a Route 53 record holds exactly
      the tokens that a present which took effect has added, or that were there to begin with,
      and that no cleanup which took effect later has removed. */
  lemma TokensAreExact(sink: bool, remote: Remote, steps: seq<Step>, s: State, r: Resource, token: string)
    requires Reaches(sink, remote, steps, s) && r.Rrset? && IsPlain(Content(remote, r))
    ensures Holds(Content(s.remote, r), token) <==> Stands(s.log, r, token, Holds(Content(remote, r), token))
  {
    EveryRunIsSound(sink, remote, steps);
    SerialIsExact(s.log, r, Content(remote, r), token);
  }

  // ---------------------------------------------------------------- Hurricane Electric keeps one value

  /** A Hurricane Electric operation on `owner` that took effect. */
  ghost predicate Overwrites(e: Entry, owner: Name) {
    e.effect == Applied && e.job.route.provider.HurricaneElectric? && e.job.owner == owner
  }

  /** The value that such an operation is for: the token, or the placeholder of its zone. */
  ghost predicate IsValueOf(value: string, job: Job) {
    && job.route.provider.HurricaneElectric?
    && if job.op.action == R.Present then job.op.tokens == [value] else value == job.route.provider.placeholder
  }

  lemma OverwriteValue(job: Job, existing: Option<R.RRset>)
    requires job.route.provider.HurricaneElectric? && Entitled(job)
    ensures AloneFor(job, existing).Some? && |R.RecordValues(AloneFor(job, existing))| == 1
    ensures IsValueOf(R.RecordValues(AloneFor(job, existing))[0], job)
  {
  }

  lemma {:induction false} SerialIsLastWrite(log: seq<Entry>, owner: Name, start: Option<R.RRset>, i: nat)
    requires forall j :: 0 <= j < |log| ==> Entitled(log[j].job)
    requires i < |log| && Overwrites(log[i], owner) && forall j :: i < j < |log| ==> !Overwrites(log[j], owner)
    ensures var content := SerialAt(log, HeRecord(owner), start);
            content.Some? && |content.value.values| == 1 && IsValueOf(content.value.values[0], log[i].job)
  {
    var n := |log| - 1;
    if i == n {
      OverwriteValue(log[n].job, SerialAt(log[..n], HeRecord(owner), start));
    } else {
      assert log[..n][i] == log[i];
      SerialIsLastWrite(log[..n], owner, start, i);
      assert !Overwrites(log[n], owner);
    }
  }

  lemma {:induction false} SerialUntouched(log: seq<Entry>, owner: Name, start: Option<R.RRset>)
    requires forall j :: 0 <= j < |log| ==> !Overwrites(log[j], owner)
    ensures SerialAt(log, HeRecord(owner), start) == start
  {
    if log != [] {
      var n := |log| - 1;
      assert !Overwrites(log[n], owner);
      SerialUntouched(log[..n], owner, start);
    }
  }

  /** The content is that of a last-write register: the value of the last operation that took
      effect, or what was there at the start. */
  ghost predicate HoldsLastWrite(log: seq<Entry>, owner: Name, start: Option<R.RRset>, content: Option<R.RRset>) {
    && (forall i :: 0 <= i < |log| && Overwrites(log[i], owner)
                    && (forall j :: i < j < |log| ==> !Overwrites(log[j], owner)) ==>
          content.Some? && |content.value.values| == 1 && IsValueOf(content.value.values[0], log[i].job))
    && ((forall j :: 0 <= j < |log| ==> !Overwrites(log[j], owner)) ==> content == start)
  }

  lemma SerialHoldsLastWrite(log: seq<Entry>, owner: Name, start: Option<R.RRset>)
    requires forall j :: 0 <= j < |log| ==> Entitled(log[j].job)
    ensures HoldsLastWrite(log, owner, start, SerialAt(log, HeRecord(owner), start))
  {
    var content := SerialAt(log, HeRecord(owner), start);
    forall i | 0 <= i < |log| && Overwrites(log[i], owner)
               && (forall j :: i < j < |log| ==> !Overwrites(log[j], owner))
      ensures content.Some? && |content.value.values| == 1 && IsValueOf(content.value.values[0], log[i].job)
    {
      SerialIsLastWrite(log, owner, start, i);
    }
    if forall j :: 0 <= j < |log| ==> !Overwrites(log[j], owner) { SerialUntouched(log, owner, start); }
  }

  /** At every moment of every run a Hurricane Electric record is a last-write register: its one
      value is that of the last operation on it that took effect, the token of a present or the
      placeholder of a cleanup; before any such operation it is as it was. */
  lemma HurricaneKeepsLastWrite(sink: bool, remote: Remote, steps: seq<Step>, s: State, owner: Name)
    requires Reaches(sink, remote, steps, s) && Genuine(steps)
    ensures HoldsLastWrite(s.log, owner, Content(remote, HeRecord(owner)), Content(s.remote, HeRecord(owner)))
  {
    EveryRunIsSound(sink, remote, steps);
    EveryCallIsEntitled(sink, remote, steps);
    SerialHoldsLastWrite(s.log, owner, Content(remote, HeRecord(owner)));
  }

  lemma OneMoreStep(s0: State, steps: seq<Step>, step: Step)
    requires Legal(s0, steps) && Enabled(After(s0, steps), step)
    ensures Legal(s0, steps + [step]) && After(s0, steps + [step]) == Do(After(s0, steps), step)
  {
    assert (steps + [step])[..|steps|] == steps;
  }

  /** The signed UPDATE that adds one TXT record with the content `raw` at `owner`. */
  function AddOne(owner: Name, raw: seq<byte>): Parsed {
    Query(true, OPCODE_UPDATE, UpdateMessage([owner], [UpdateRrset(owner, TXT, None, [Txt([raw])])]))
  }

  lemma AddOneIsAdmitted(owner: Name, raw: seq<byte>, hostedZone: string, ttl: int)
    requires Canonical(owner) == owner && IsAscii(raw) && 1 <= |raw| <= MAX_TXT_LEN
    ensures var route := Route(owner, AmazonRoute53(hostedZone, ttl), owner);
            Admit(AddOne(owner, raw), map[owner := route]) ==
              Call(Job(AddOne(owner, raw), route, owner, R.Operation(R.Present, ttl, [Decode(raw)])))
  {
    var rdatas := [Txt([raw])];
    assert Join([raw]) == raw by { assert [raw][..0] == []; }
    assert NormalizeOne(rdatas[0]) == Ok(Decode(raw));
    assert NormalizeEach(rdatas[..0]) == Ok([]);
    assert NormalizeEach(rdatas) == Ok([] + [Decode(raw)]);
  }

  /** Such runs exist for every token: an UPDATE that adds it, alone and without faults. */
  lemma TokenCanBePresented(owner: Name, raw: seq<byte>, hostedZone: string, ttl: int)
    returns (steps: seq<Step>, s: State)
    requires Canonical(owner) == owner && IsAscii(raw) && 1 <= |raw| <= MAX_TXT_LEN
    ensures Reaches(false, map[], steps, s) && Genuine(steps) && PresentAnswered(s, 0, Decode(raw))
  {
    var route, token := Route(owner, AmazonRoute53(hostedZone, ttl), owner), Decode(raw);
    var job := Job(AddOne(owner, raw), route, owner, R.Operation(R.Present, ttl, [token]));
    AddOneIsAdmitted(owner, raw, hostedZone, ttl);
    assert Judged(Call(job)) by { assert Call(job) == Admit(AddOne(owner, raw), map[owner := route]); }
    var change, content := R.Upsert(ttl, [R.Quote(token)]), R.RRset(Some(ttl), [R.Quote(token)]);
    FirstPlan(job.op, token);
    steps := AloneSteps(job, change, content);
    s := RunAlone(job, change, content);
    FirstOnlyArrives(steps, job);
  }

  lemma FirstOnlyArrives(steps: seq<Step>, job: Job)
    requires steps != [] && steps[0] == Arrive(0, Call(job)) && Judged(Call(job))
    requires forall i :: 0 < i < |steps| ==> !steps[i].Arrive?
    ensures Genuine(steps)
  {
  }

  /** The change that a present of one token submits for a record that does not exist. */
  lemma FirstPlan(op: R.Operation, token: string)
    requires op.action == R.Present && op.tokens == [token]
    ensures R.Plan(op, None) == Some(R.Upsert(op.ttl, [R.Quote(token)]))
  {
    var quoted := R.QuoteAll(op.tokens);
    assert quoted == [R.Quote(token)] && quoted[..0] == [];
    assert R.Merge([], quoted) == [R.Quote(token)];
  }

  /** One task alone, holding its lock in some phase; `content` is its record. */
  ghost predicate Lone(s: State, job: Job, phase: Phase, content: Option<R.RRset>) {
    !s.sink && 0 in s.tasks && s.tasks[0] == Active(job, 0, phase) && Content(s.remote, ResourceOf(job)) == content
  }

  lemma ReadsAlone(s: State, job: Job, change: R.Change)
    requires Lone(s, job, Reading, None) && PlanFor(job, None) == Some(change)
    ensures Enabled(s, ReadOk(0, Some(change))) && Lone(Do(s, ReadOk(0, Some(change))), job, Changing(change), None)
  {
  }

  lemma StartAlone(job: Job, change: R.Change) returns (steps: seq<Step>)
    requires job.route.provider.AmazonRoute53? && PlanFor(job, None) == Some(change)
    ensures steps == [Arrive(0, Call(job))] + [ReadOk(0, Some(change))]
    ensures Legal(Initial(false, map[]), steps)
    ensures Lone(After(Initial(false, map[]), steps), job, Changing(change), None)
  {
    var s0 := Initial(false, map[]);
    OneMoreStep(s0, [], Arrive(0, Call(job)));
    steps := [Arrive(0, Call(job))];
    assert [] + steps == steps;
    ReadsAlone(After(s0, steps), job, change);
    OneMoreStep(s0, steps, ReadOk(0, Some(change)));
    steps := steps + [ReadOk(0, Some(change))];
  }

  /** The five steps of a present of one token that nothing disturbs. */
  function AloneSteps(job: Job, change: R.Change, content: R.RRset): seq<Step> {
    [Arrive(0, Call(job))] + [ReadOk(0, Some(change))] + [Apply(0, Some(content))] + [Confirm(0, true)] + [Record(0)]
  }

  lemma RunAlone(job: Job, change: R.Change, content: R.RRset) returns (s: State)
    requires job.route.provider.AmazonRoute53? && PlanFor(job, None) == Some(change)
    requires R.Execute(None, change) == Some(Some(content))
    ensures Reaches(false, map[], AloneSteps(job, change, content), s)
    ensures 0 in s.tasks && s.tasks[0] == Answered(job, 0, true, NOERROR, NoSink)
  {
    var steps := StartAlone(job, change);
    var more := ApplyAndRecord(Initial(false, map[]), steps, job, change, content);
    assert more == AloneSteps(job, change, content);
    s := After(Initial(false, map[]), more);
  }

  lemma ApplyAndRecord(s0: State, steps: seq<Step>, job: Job, change: R.Change, content: R.RRset)
    returns (more: seq<Step>)
    requires Legal(s0, steps) && Lone(After(s0, steps), job, Changing(change), None)
    requires R.Execute(None, change) == Some(Some(content))
    ensures more == steps + [Apply(0, Some(content))] + [Confirm(0, true)] + [Record(0)]
    ensures Legal(s0, more) && 0 in After(s0, more).tasks
              && After(s0, more).tasks[0] == Answered(job, 0, true, NOERROR, NoSink)
  {
    OneMoreStep(s0, steps, Apply(0, Some(content)));
    var next := steps + [Apply(0, Some(content))];
    assert Lone(After(s0, next), job, Confirming, Some(content));
    more := ConfirmAndRecord(s0, next, job, content);
  }

  lemma ConfirmAndRecord(s0: State, steps: seq<Step>, job: Job, content: R.RRset) returns (more: seq<Step>)
    requires Legal(s0, steps) && Lone(After(s0, steps), job, Confirming, Some(content))
    ensures more == steps + [Confirm(0, true)] + [Record(0)] && Legal(s0, more) && 0 in After(s0, more).tasks
    ensures After(s0, more).tasks[0] == Answered(job, 0, true, NOERROR, NoSink)
  {
    OneMoreStep(s0, steps, Confirm(0, true));
    var next := steps + [Confirm(0, true)];
    assert Lone(After(s0, next), job, Returned(true), Some(content));
    OneMoreStep(s0, next, Record(0));
    more := next + [Record(0)];
    RecordAnswers(After(s0, next), job, Some(content));
  }

  lemma RecordAnswers(s: State, job: Job, content: Option<R.RRset>)
    requires Lone(s, job, Returned(true), content)
    ensures Enabled(s, Record(0)) && Do(s, Record(0)).tasks[0] == Answered(job, 0, true, NOERROR, NoSink)
  {
  }

  // ---------------------------------------------------------------- nothing gets stuck

  /** How a task that holds its lock can always go on: whatever it waits for may fail. */
  function WayOn(s: State, t: nat): Step
    requires InPhase(s, t)
  {
    match s.tasks[t].phase
    case Reading => ReadFails(t)
    case Changing(_) => Lose(t)
    case Confirming => Confirm(t, false)
    case Returned(_) => Record(t)
    case Auditing(_) => AuditDone(t, false)
  }

  function StepsLeft(phase: Phase): nat {
    match phase
    case Reading | Changing(_) | Confirming => 3
    case Returned(_) => 2
    case Auditing(_) => 1
  }

  /** A continuation in which no new request arrives. */
  ghost predicate WindsDown(s0: State, earlier: seq<Step>, steps: seq<Step>) {
    Continues(s0, earlier, steps) && forall i :: |earlier| <= i < |steps| ==> !steps[i].Arrive?
  }

  lemma WindsDownFurther(s0: State, a: seq<Step>, b: seq<Step>, c: seq<Step>)
    requires WindsDown(s0, a, b) && WindsDown(s0, b, c)
    ensures WindsDown(s0, a, c)
  {
    forall i | |a| <= i < |c| ensures !c[i].Arrive? {
      if i < |b| { assert c[i] == b[i]; }
    }
  }

  /** The next task on its way on: the same job nearer its end, or the answer. */
  lemma NextTaskGoesOn(s: State, t: nat)
    requires InPhase(s, t)
    ensures Enabled(s, WayOn(s, t))
    ensures var task := NextTask(s, WayOn(s, t));
            if task.Active? then task.job == s.tasks[t].job && StepsLeft(task.phase) < StepsLeft(s.tasks[t].phase)
            else task.Answered?
  {
  }

  lemma NextLocksGoOn(s: State, t: nat)
    requires InPhase(s, t) && Enabled(s, WayOn(s, t))
    ensures var owner := s.tasks[t].job.owner;
            NextLocks(s, WayOn(s, t)) ==
              if NextTask(s, WayOn(s, t)).Active? then s.locks
              else s.locks[owner := LockFor(s.locks, owner).(holder := None)]
  {
  }

  lemma GoesOn(s: State, t: nat)
    requires InPhase(s, t)
    ensures Enabled(s, WayOn(s, t))
    ensures var s', owner := Do(s, WayOn(s, t)), s.tasks[t].job.owner;
            && t in s'.tasks && s'.tasks == s.tasks[t := s'.tasks[t]]
            && (if s'.tasks[t].Active? then
                  && s'.tasks[t].job == s.tasks[t].job && s'.locks == s.locks
                  && StepsLeft(s'.tasks[t].phase) < StepsLeft(s.tasks[t].phase)
                else
                  s'.tasks[t].Answered? && s'.locks == s.locks[owner := LockFor(s.locks, owner).(holder := None)])
  {
    NextTaskGoesOn(s, t);
    NextLocksGoOn(s, t);
  }

  /** What answering `t` does to the rest: its lock gets free, its queue stays. */
  ghost predicate OnlyAnswers(s: State, s': State, t: nat, owner: Name, waiters: seq<nat>) {
    && t in s'.tasks && s'.tasks[t].Answered?
    && (forall u :: u != t && u in s.tasks ==> u in s'.tasks && s'.tasks[u] == s.tasks[u])
    && LockFor(s'.locks, owner) == Lock(None, waiters)
  }

  /** Only `t` has changed, and it still holds its lock for the same job, nearer its end. */
  ghost predicate OnlyNearer(s: State, s': State, t: nat) {
    && InPhase(s, t) && InPhase(s', t) && s'.tasks == s.tasks[t := s'.tasks[t]] && s'.locks == s.locks
    && s'.tasks[t].job == s.tasks[t].job && StepsLeft(s'.tasks[t].phase) < StepsLeft(s.tasks[t].phase)
  }

  lemma CanGoOn(s0: State, steps: seq<Step>, t: nat, owner: Name, waiters: seq<nat>) returns (next: seq<Step>)
    requires Legal(s0, steps) && InPhase(After(s0, steps), t)
    requires owner == After(s0, steps).tasks[t].job.owner && waiters == WaitersOf(After(s0, steps).locks, owner)
    ensures WindsDown(s0, steps, next)
    ensures OnlyNearer(After(s0, steps), After(s0, next), t)
         || OnlyAnswers(After(s0, steps), After(s0, next), t, owner, waiters)
  {
    var step := WayOn(After(s0, steps), t);
    GoesOn(After(s0, steps), t);
    OneMoreStep(s0, steps, step);
    next := steps + [step];
  }

  lemma NearerThenAnswers(s: State, s1: State, s2: State, t: nat, owner: Name, waiters: seq<nat>)
    requires OnlyNearer(s, s1, t) && OnlyAnswers(s1, s2, t, owner, waiters)
    ensures OnlyAnswers(s, s2, t, owner, waiters)
  {
  }

  /** A task that holds its lock can be answered. */
  lemma {:induction false} CanFinish(s0: State, steps: seq<Step>, t: nat, owner: Name, waiters: seq<nat>)
    returns (more: seq<Step>)
    requires Legal(s0, steps) && InPhase(After(s0, steps), t)
    requires owner == After(s0, steps).tasks[t].job.owner && waiters == WaitersOf(After(s0, steps).locks, owner)
    ensures WindsDown(s0, steps, more) && OnlyAnswers(After(s0, steps), After(s0, more), t, owner, waiters)
    decreases StepsLeft(After(s0, steps).tasks[t].phase)
  {
    var next := CanGoOn(s0, steps, t, owner, waiters);
    if OnlyNearer(After(s0, steps), After(s0, next), t) {
      more := CanFinish(s0, next, t, owner, waiters);
      WindsDownFurther(s0, steps, next, more);
      NearerThenAnswers(After(s0, steps), After(s0, next), After(s0, more), t, owner, waiters);
    } else {
      more := next;
    }
  }

  ghost predicate QueueWaits(tasks: Tasks, waiters: seq<nat>, owner: Name) {
    && (forall i :: 0 <= i < |waiters| ==> Waiting(tasks, waiters[i], owner))
    && (forall i, j :: 0 <= i < j < |waiters| ==> waiters[i] != waiters[j])
  }

  /** The lock of `owner` is free and `waiters` wait for it. */
  ghost predicate FreeWith(s: State, owner: Name, waiters: seq<nat>) {
    LockFor(s.locks, owner) == Lock(None, waiters) && QueueWaits(s.tasks, waiters, owner)
  }

  /** The head of the queue of a free lock can be answered, and the rest then waits. */
  lemma CanServeHead(s0: State, steps: seq<Step>, owner: Name, head: nat, rest: seq<nat>) returns (more: seq<Step>)
    requires Legal(s0, steps) && FreeWith(After(s0, steps), owner, [head] + rest)
    ensures WindsDown(s0, steps, more)
    ensures head in After(s0, more).tasks && After(s0, more).tasks[head].Answered?
    ensures FreeWith(After(s0, more), owner, rest)
  {
    var s, waiters := After(s0, steps), [head] + rest;
    assert waiters[0] == head && waiters[1..] == rest;
    OneMoreStep(s0, steps, Wake(head));
    var next := steps + [Wake(head)];
    assert WindsDown(s0, steps, next);
    more := CanFinish(s0, next, head, owner, rest);
    WindsDownFurther(s0, steps, next, more);
    RestStillWaits(s, After(s0, next), After(s0, more), owner, head, rest);
  }

  lemma RestStillWaits(s: State, s1: State, s2: State, owner: Name, head: nat, rest: seq<nat>)
    requires QueueWaits(s.tasks, [head] + rest, owner)
    requires forall u :: u != head && u in s.tasks ==> u in s1.tasks && s1.tasks[u] == s.tasks[u]
    requires OnlyAnswers(s1, s2, head, owner, rest)
    ensures FreeWith(s2, owner, rest)
  {
    var waiters := [head] + rest;
    forall i | 0 <= i < |rest| ensures Waiting(s2.tasks, rest[i], owner) {
      assert Waiting(s.tasks, waiters[i + 1], owner) && waiters[0] != waiters[i + 1];
    }
    forall i, j | 0 <= i < j < |rest| ensures rest[i] != rest[j] { assert waiters[i + 1] != waiters[j + 1]; }
  }

  /** A waiting task can be answered once the lock is free: the queue is served up to it. */
  lemma {:induction false} CanServeQueue(s0: State, steps: seq<Step>, owner: Name, waiters: seq<nat>, t: nat)
    returns (more: seq<Step>)
    requires Legal(s0, steps) && FreeWith(After(s0, steps), owner, waiters) && t in waiters
    ensures WindsDown(s0, steps, more) && t in After(s0, more).tasks && After(s0, more).tasks[t].Answered?
    decreases |waiters|
  {
    var head, rest := waiters[0], waiters[1..];
    assert waiters == [head] + rest;
    more := CanServeHead(s0, steps, owner, head, rest);
    if head != t {
      var next := more;
      more := CanServeQueue(s0, next, owner, rest, t);
      WindsDownFurther(s0, steps, next, more);
    }
  }

  /** A lock, held or free, can be made free with its queue as it is. */
  lemma CanFree(s0: State, steps: seq<Step>, owner: Name) returns (more: seq<Step>)
    requires Legal(s0, steps) && LocksOk(After(s0, steps).tasks, After(s0, steps).locks)
    ensures WindsDown(s0, steps, more)
    ensures FreeWith(After(s0, more), owner, WaitersOf(After(s0, steps).locks, owner))
  {
    var s := After(s0, steps);
    var lock := LockFor(s.locks, owner);
    assert LockOk(s.tasks, lock, owner);
    if lock.holder == None {
      more := steps;
    } else {
      assert Holding(s.tasks, lock.holder.value, owner);
      more := CanFinish(s0, steps, lock.holder.value, owner, lock.waiters);
    }
  }

  /** From every state of every run, every task that is queued or past its queue can still be
      answered, by a continuation of that run in which no new request arrives: no interleaving
      and no fault leaves a lock held for ever or a queue that nobody serves. */
  lemma EveryTaskCanBeAnswered(sink: bool, remote: Remote, steps: seq<Step>, s: State, t: nat)
    returns (more: seq<Step>, s': State)
    requires Reaches(sink, remote, steps, s) && t in s.tasks && (s.tasks[t].Queued? || s.tasks[t].Active?)
    ensures Reaches(sink, remote, more, s') && WindsDown(Initial(sink, remote), steps, more)
    ensures t in s'.tasks && s'.tasks[t].Answered?
  {
    var s0 := Initial(sink, remote);
    EveryRunIsSound(sink, remote, steps);
    if s.tasks[t].Active? {
      var owner := s.tasks[t].job.owner;
      more := CanFinish(s0, steps, t, owner, WaitersOf(s.locks, owner));
    } else {
      var owner := s.tasks[t].job.owner;
      assert TaskOk(s.tasks[t], s.locks, t);
      var next := CanFree(s0, steps, owner);
      more := CanServeQueue(s0, next, owner, WaitersOf(s.locks, owner), t);
      WindsDownFurther(s0, steps, next, more);
    }
    s' := After(s0, more);
  }

  // ---------------------------------------------------------------- accounts of a run

  lemma DisjointUnion(whole: set<nat>, a: set<nat>, b: set<nat>)
    requires a !! b && whole == a + b
    ensures |whole| == |a| + |b|
  {
  }

  lemma FinishedAreCountedOrNot(tasks: Tasks)
    ensures Count(tasks, FinishedC) == Count(tasks, RecordedC) + Count(tasks, ReturnedC)
  {
    DisjointUnion(Members(tasks, FinishedC), Members(tasks, RecordedC), Members(tasks, ReturnedC));
  }

  lemma AuditsAreApart(tasks: Tasks)
    ensures Members(tasks, WrittenC) !! Members(tasks, AuditFailedC)
    ensures Members(tasks, WrittenC) + Members(tasks, AuditFailedC) !! Members(tasks, AuditingC)
  {
  }

  lemma CountedHaveAudits(tasks: Tasks, sink: bool)
    requires forall t :: t in tasks ==> AuditFits(tasks[t], sink)
    ensures var audits := Members(tasks, WrittenC) + Members(tasks, AuditFailedC);
            if sink then Members(tasks, RecordedC) == audits + Members(tasks, AuditingC) else audits == {}
  {
    var audits := Members(tasks, WrittenC) + Members(tasks, AuditFailedC);
    forall t
      ensures if sink then t in Members(tasks, RecordedC) <==> t in audits + Members(tasks, AuditingC) else t !in audits
    {
      if t in tasks { assert AuditFits(tasks[t], sink); }
    }
  }

  lemma CountedAreAudited(tasks: Tasks, sink: bool)
    requires forall t :: t in tasks ==> AuditFits(tasks[t], sink)
    ensures sink ==>
              Count(tasks, RecordedC) ==
              Count(tasks, WrittenC) + Count(tasks, AuditFailedC) + Count(tasks, AuditingC)
    ensures !sink ==> Count(tasks, WrittenC) == Count(tasks, AuditFailedC) == 0
  {
    var written, lost := Members(tasks, WrittenC), Members(tasks, AuditFailedC);
    CountedHaveAudits(tasks, sink);
    AuditsAreApart(tasks);
    DisjointUnion(written + lost, written, lost);
    if sink {
      DisjointUnion(Members(tasks, RecordedC), written + lost, Members(tasks, AuditingC));
    }
  }

  /** In every state of every run: finished calls are the counted ones and those
      not yet counted, and each label counts its calls; with a sink, counted calls are the rows,
      the lost rows and those in progress, without one there are no rows; each row is its call's. */
  lemma AccountsBalance(sink: bool, remote: Remote, steps: seq<Step>, s: State)
    requires Reaches(sink, remote, steps, s)
    ensures Count(s.tasks, FinishedC) == |s.challenges| + Count(s.tasks, ReturnedC)
    ensures forall l :: s.challenges[l] == Count(s.tasks, LabelledC(l))
    ensures s.sink ==> |s.challenges| == |s.rows| + s.auditFailures + Count(s.tasks, AuditingC)
    ensures !s.sink ==> |s.rows| == s.auditFailures == 0
    ensures forall row :: s.rows[row] == Count(s.tasks, RowC(row))
  {
    EveryRunIsSound(sink, remote, steps);
    FinishedAreCountedOrNot(s.tasks);
    CountedAreAudited(s.tasks, s.sink);
  }

  /** All calls counted with this result, over both provider types and both actions. */
  function Total(challenges: multiset<Label>, result: string): nat {
    challenges[Label("route53", R.Present, result)] + challenges[Label("route53", R.Cleanup, result)]
    + challenges[Label("hurricane", R.Present, result)] + challenges[Label("hurricane", R.Cleanup, result)]
  }

  lemma FourParts(whole: set<nat>, a: set<nat>, b: set<nat>, c: set<nat>, d: set<nat>)
    requires a !! b && a + b !! c && a + b + c !! d && whole == a + b + c + d
    ensures |whole| == |a| + |b| + |c| + |d|
  {
    DisjointUnion(a + b, a, b);
    DisjointUnion(a + b + c, a + b, c);
    DisjointUnion(whole, a + b + c, d);
  }

  /** The class of the calls that a result stands for. */
  function ClassOf(result: string): Class {
    if result == "ok" then OkC else if result == "error" then ErrorC else SuppressedC
  }

  lemma ResultParts(tasks: Tasks, result: string)
    requires result in {"ok", "error", "suppressed"}
    ensures Count(tasks, ClassOf(result)) ==
            Count(tasks, LabelledC(Label("route53", R.Present, result)))
            + Count(tasks, LabelledC(Label("route53", R.Cleanup, result)))
            + Count(tasks, LabelledC(Label("hurricane", R.Present, result)))
            + Count(tasks, LabelledC(Label("hurricane", R.Cleanup, result)))
  {
    var a, b := LabelledC(Label("route53", R.Present, result)), LabelledC(Label("route53", R.Cleanup, result));
    var c, d := LabelledC(Label("hurricane", R.Present, result)), LabelledC(Label("hurricane", R.Cleanup, result));
    forall t | t in tasks
      ensures In(ClassOf(result), tasks[t]) <==>
              In(a, tasks[t]) || In(b, tasks[t]) || In(c, tasks[t]) || In(d, tasks[t])
      ensures !(In(a, tasks[t]) && In(b, tasks[t])) && !(In(c, tasks[t]) && In(d, tasks[t]))
      ensures !((In(a, tasks[t]) || In(b, tasks[t])) && (In(c, tasks[t]) || In(d, tasks[t])))
    {
      OneLabelEach(tasks[t], result);
    }
    FourParts(Members(tasks, ClassOf(result)),
              Members(tasks, a), Members(tasks, b), Members(tasks, c), Members(tasks, d));
  }

  lemma OneLabelEach(task: Task, result: string)
    requires result in {"ok", "error", "suppressed"}
    ensures var a, b := LabelledC(Label("route53", R.Present, result)), LabelledC(Label("route53", R.Cleanup, result));
            var c := LabelledC(Label("hurricane", R.Present, result));
            var d := LabelledC(Label("hurricane", R.Cleanup, result));
            && (In(ClassOf(result), task) <==> In(a, task) || In(b, task) || In(c, task) || In(d, task))
            && !(In(a, task) && In(b, task)) && !(In(c, task) && In(d, task))
            && !((In(a, task) || In(b, task)) && (In(c, task) || In(d, task)))
  {
    assert |"route53"| != |"hurricane"|;
    assert |"ok"| == 2 && |"error"| == 5 && |"suppressed"| == 10;
  }

  lemma TotalIsCount(s: State, result: string)
    requires forall l :: s.challenges[l] == Count(s.tasks, LabelledC(l))
    requires result in {"ok", "error", "suppressed"}
    ensures Total(s.challenges, result) == Count(s.tasks, ClassOf(result))
  {
    ResultParts(s.tasks, result);
  }

  lemma RecordedEndSomehow(tasks: Tasks)
    ensures Count(tasks, RecordedC) == Count(tasks, OkC) + Count(tasks, ErrorC) + Count(tasks, SuppressedC)
  {
    var a, b, c := Members(tasks, OkC), Members(tasks, ErrorC), Members(tasks, SuppressedC);
    assert a !! b && a + b !! c;
    assert Members(tasks, RecordedC) == a + b + c;
    DisjointUnion(a + b, a, b);
    DisjointUnion(a + b + c, a + b, c);
  }

  /** In every state of every run the counters tell how the counted calls ended: so many returned,
      so many presents raised, so many cleanups raised, and nothing else is counted. */
  lemma ResultsAreExact(sink: bool, remote: Remote, steps: seq<Step>, s: State)
    requires Reaches(sink, remote, steps, s)
    ensures Total(s.challenges, "ok") == Count(s.tasks, OkC)
    ensures Total(s.challenges, "error") == Count(s.tasks, ErrorC)
    ensures Total(s.challenges, "suppressed") == Count(s.tasks, SuppressedC)
    ensures |s.challenges| == Count(s.tasks, OkC) + Count(s.tasks, ErrorC) + Count(s.tasks, SuppressedC)
  {
    BooksAreKept(sink, remote, steps, s);
    TotalIsCount(s, "ok");
    TotalIsCount(s, "error");
    TotalIsCount(s, "suppressed");
    RecordedEndSomehow(s.tasks);
  }

  lemma BooksAreKept(sink: bool, remote: Remote, steps: seq<Step>, s: State)
    requires Reaches(sink, remote, steps, s)
    ensures forall l :: s.challenges[l] == Count(s.tasks, LabelledC(l))
    ensures |s.challenges| == Count(s.tasks, RecordedC)
  {
    EveryRunIsSound(sink, remote, steps);
  }

  // ---------------------------------------------------------------- what an answer tells

  /** The step reports to task `t` that its provider call went wrong. */
  predicate IsFault(step: Step, t: nat) {
    step == ReadFails(t) || step == Lose(t) || step == Confirm(t, false)
  }

  ghost predicate Faulted(steps: seq<Step>, t: nat) {
    exists i :: 0 <= i < |steps| && IsFault(steps[i], t)
  }

  /** `ok` is recorded exactly when no fault was; before the call ends there is none yet. */
  predicate OkFits(task: Task, faulted: bool) {
    match task
    case Turned(_) => !faulted
    case Queued(_) => !faulted
    case Active(_, _, Returned(ok)) => ok <==> !faulted
    case Active(_, _, Auditing(ok)) => ok <==> !faulted
    case Active(_, _, _) => !faulted
    case Answered(_, _, ok, _, _) => ok <==> !faulted
  }

  lemma StepKeepsOkFits(s: State, step: Step, faulted: bool)
    requires Ready(s, step)
    requires if step.tid in s.tasks then OkFits(s.tasks[step.tid], faulted) else !faulted
    ensures OkFits(NextTask(s, step), faulted || IsFault(step, step.tid))
  {
  }

  lemma FaultedAppend(before: seq<Step>, step: Step, t: nat)
    ensures Faulted(before + [step], t) <==> Faulted(before, t) || IsFault(step, t)
  {
    var steps := before + [step];
    if Faulted(before, t) {
      var i :| 0 <= i < |before| && IsFault(before[i], t);
      assert steps[i] == before[i];
    }
    if IsFault(step, t) { assert steps[|before|] == step; }
  }

  predicate OkFitsIn(tasks: Tasks, t: nat, faulted: bool) {
    if t in tasks then OkFits(tasks[t], faulted) else !faulted
  }

  lemma StepKeepsOkFitsIn(s: State, step: Step, t: nat, faulted: bool)
    requires Ready(s, step) && OkFitsIn(s.tasks, t, faulted)
    ensures OkFitsIn(Do(s, step).tasks, t, faulted || IsFault(step, t))
  {
    if step.tid == t { StepKeepsOkFits(s, step, faulted); }
    assert Do(s, step).tasks == s.tasks[step.tid := NextTask(s, step)];
  }

  lemma {:induction false} OkMeansNoFault(sink: bool, remote: Remote, steps: seq<Step>, t: nat)
    requires Legal(Initial(sink, remote), steps)
    ensures OkFitsIn(After(Initial(sink, remote), steps).tasks, t, Faulted(steps, t))
  {
    if steps != [] {
      var before, step := steps[..|steps| - 1], steps[|steps| - 1];
      assert steps == before + [step];
      OkMeansNoFault(sink, remote, before, t);
      FaultedAppend(before, step, t);
      StepKeepsOkFitsIn(After(Initial(sink, remote), before), step, t, Faulted(before, t));
    }
  }

  /** Over the run: a present is answered NOERROR exactly when neither its listing nor its change
      nor its confirmation went wrong, also when it had nothing to submit, and SERVFAIL otherwise;
      a cleanup is answered NOERROR whatever happened, and recorded as it happened. */
  lemma AnswersFollowFaults(sink: bool, remote: Remote, steps: seq<Step>, s: State, t: nat)
    requires Reaches(sink, remote, steps, s) && t in s.tasks && s.tasks[t].Answered?
    ensures s.tasks[t].ok <==> !Faulted(steps, t)
    ensures s.tasks[t].job.op.action == R.Cleanup ==> s.tasks[t].rcode == NOERROR
    ensures s.tasks[t].job.op.action == R.Present ==>
              s.tasks[t].rcode == if Faulted(steps, t) then SERVFAIL else NOERROR
  {
    OkMeansNoFault(sink, remote, steps, t);
    EveryRunIsSound(sink, remote, steps);
    assert SlotOk(s.tasks[t], s.log, t);
  }

  /** A cleanup is always answered NOERROR, a present exactly when the provider
      returned; and then the operation stands in the serial order as one that took effect, unless
      it is a Hurricane Electric cleanup. */
  lemma AnswersAreRight(sink: bool, remote: Remote, steps: seq<Step>, s: State, t: nat)
    requires Reaches(sink, remote, steps, s) && t in s.tasks && s.tasks[t].Answered?
    ensures var task := s.tasks[t];
            && (task.rcode == NOERROR <==> task.ok || task.job.op.action == R.Cleanup)
            && (task.rcode != NOERROR ==> task.rcode == SERVFAIL)
            && task.slot < |s.log| && s.log[task.slot].tid == t && s.log[task.slot].job == task.job
            && s.log[task.slot].effect != Undecided
            && (task.ok && MustTakeEffect(task.job) ==> s.log[task.slot].effect == Applied)
  {
    EveryRunIsSound(sink, remote, steps);
    assert SlotOk(s.tasks[t], s.log, t);
  }

  /** A request that was turned away never had a provider call. */
  lemma TurnedAwayNeverCalls(sink: bool, remote: Remote, steps: seq<Step>, s: State, t: nat)
    requires Reaches(sink, remote, steps, s) && t in s.tasks && s.tasks[t].Turned?
    ensures forall i :: 0 <= i < |s.log| ==> s.log[i].tid != t
  {
    EveryRunIsSound(sink, remote, steps);
    forall i | 0 <= i < |s.log| ensures s.log[i].tid != t { assert EntryOk(s.tasks, s.log[i], i); }
  }

  /** In `s`, some task with this job has been answered after its provider call returned. */
  ghost predicate Succeeded(s: State, t: nat, job: Job) {
    t in s.tasks && s.tasks[t].Answered? && s.tasks[t].job == job && s.tasks[t].ok
  }

  ghost predicate TookEffect(s: State, t: nat) {
    t in s.tasks && s.tasks[t].Answered? && s.tasks[t].slot < |s.log| && s.log[s.tasks[t].slot].effect == Applied
  }

  /** "Whenever the provider call of this request returned, its operation took effect" holds in
      all runs exactly for Route 53 and for presents. */
  lemma OkMeansAppliedIff(job: Job)
    requires Judged(Call(job))
    ensures (forall sink, remote, steps, s, t ::
               Genuine(steps) && Reaches(sink, remote, steps, s) && Succeeded(s, t, job) ==> TookEffect(s, t)) <==>
            MustTakeEffect(job)
  {
    if MustTakeEffect(job) {
      forall sink, remote, steps, s, t | Genuine(steps) && Reaches(sink, remote, steps, s) && Succeeded(s, t, job)
        ensures TookEffect(s, t)
      {
        AnswersAreRight(sink, remote, steps, s, t);
      }
    } else {
      var steps, s := CleanupIgnored(job);
      assert Genuine(steps) && Reaches(false, map[], steps, s) && Succeeded(s, 0, job) && !TookEffect(s, 0);
    }
  }

  /** The run that fails it: a Hurricane Electric cleanup gets a benign answer and no effect. */
  lemma CleanupIgnored(job: Job) returns (steps: seq<Step>, s: State)
    requires Judged(Call(job)) && !MustTakeEffect(job)
    ensures Genuine(steps) && Reaches(false, map[], steps, s)
    ensures Succeeded(s, 0, job) && s.tasks[0].rcode == NOERROR && !TookEffect(s, 0)
  {
    var s0 := Initial(false, map[]);
    OneMoreStep(s0, [], Arrive(0, Call(job)));
    steps := [] + [Arrive(0, Call(job))];
    assert Lone(After(s0, steps), job, Changing(Overwrite(job)), None);
    OneMoreStep(s0, steps, Benign(0));
    steps := steps + [Benign(0)];
    s := After(s0, steps);
    assert Lone(s, job, Returned(true), None) && s.log == [Entry(0, job, NotApplied)];
    OneMoreStep(s0, steps, Record(0));
    RecordAnswers(s, job, None);
    steps := steps + [Record(0)];
    s := After(s0, steps);
    FirstOnlyArrives(steps, job);
  }

  /** And such requests are admitted: a class-ANY deletion in a Hurricane Electric zone. */
  lemma HurricaneCleanupIsAdmitted(owner: Name, placeholder: string) returns (job: Job)
    requires Canonical(owner) == owner
    ensures Judged(Call(job)) && !MustTakeEffect(job) && job.owner == owner
  {
    var route := Route(owner, HurricaneElectric(placeholder), owner);
    var parsed := Query(true, OPCODE_UPDATE, UpdateMessage([owner], [UpdateRrset(owner, TXT, Some(CLASS_ANY), [])]));
    job := Job(parsed, route, owner, R.Operation(R.Cleanup, 0, []));
    assert Call(job) == Admit(parsed, map[owner := route]);
  }

  /** Every arrival is the verdict on some parsed message under some routing table. */
  ghost predicate Genuine(steps: seq<Step>) {
    forall i :: 0 <= i < |steps| && steps[i].Arrive? ==> Judged(steps[i].verdict)
  }

  ghost predicate Judged(verdict: Verdict) {
    exists parsed, table :: verdict == Admit(parsed, table)
  }

  ghost predicate JobEntitled(task: Task) {
    !task.Turned? ==> Entitled(task.job)
  }

  /** Every provider call of every run comes from a TSIG-verified UPDATE with one
      TXT rrset owned by its route's configured record, and carries exactly that rrset's tokens. */
  lemma {:induction false} EveryCallIsEntitled(sink: bool, remote: Remote, steps: seq<Step>)
    requires Legal(Initial(sink, remote), steps) && Genuine(steps)
    ensures forall t :: t in After(Initial(sink, remote), steps).tasks ==>
                          JobEntitled(After(Initial(sink, remote), steps).tasks[t])
    ensures forall i :: 0 <= i < |After(Initial(sink, remote), steps).log| ==>
                          Entitled(After(Initial(sink, remote), steps).log[i].job)
  {
    if steps != [] {
      var before, step := steps[..|steps| - 1], steps[|steps| - 1];
      EveryCallIsEntitled(sink, remote, before);
      var s := After(Initial(sink, remote), before);
      if step.Arrive? {
        assert Judged(step.verdict);
        VerdictIsEntitled(step.verdict);
      }
      if step.tid in s.tasks { assert JobEntitled(s.tasks[step.tid]); }
      assert Do(s, step) == After(Initial(sink, remote), steps);
      NextTaskEntitled(s, step);
    }
  }

  lemma VerdictIsEntitled(verdict: Verdict)
    requires Judged(verdict)
    ensures verdict.Call? ==> Entitled(verdict.job)
  {
    var parsed, table :| verdict == Admit(parsed, table);
    if verdict.Call? { AdmittedIsEntitled(parsed, table); }
  }

  lemma NextTaskEntitled(s: State, step: Step)
    requires Ready(s, step)
    requires step.tid in s.tasks ==> JobEntitled(s.tasks[step.tid])
    requires step.Arrive? && step.verdict.Call? ==> Entitled(step.verdict.job)
    requires forall i :: 0 <= i < |s.log| ==> Entitled(s.log[i].job)
    ensures JobEntitled(NextTask(s, step))
    ensures forall i :: 0 <= i < |NextLog(s, step)| ==> Entitled(NextLog(s, step)[i].job)
  {
    var log := NextLog(s, step);
    forall i | 0 <= i < |log| ensures Entitled(log[i].job) {
      if i < |s.log| { assert Entitled(s.log[i].job); }
    }
  }
}
