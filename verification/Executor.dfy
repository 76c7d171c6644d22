/**
 The application executor as a state machine: submissions, the bounded channel, two
 worker threads, and the completions handed to callers. One step is one atomic load or
 update, one critical section, or one stage of a job closure on a worker.
 */
module Executor {
  import opened Common

  const MAX_WORK: nat := 16
  const WORKERS: nat := 2

  /** The two workers, and whichever of them drops the channel when the last one is gone. */
  const THREADS: nat := 3
  const RECEIVER: nat := 2

  /**
   How far a thread got with a job: on the way to running it, running it, publishing its
   value; or dropping it unrun, with both captures still there, or only one of them.
   */
  datatype Part =
    | Received | Approved | Running | Stored | Released
    | Dropping | ShareDropped | SlotDropped

  datatype Stage =
    | Admitted                       // closed was read as false
    | Reserved                       // a permit is counted; submit and the closure share it
    | Locked                         // submit holds the sender mutex, closed read as false again
    | Failing                        // submit is returning an error with its permit still held
    | Refused                        // submit returned an error
    | Queued                         // in the channel; the completion was handed out
    | At(worker: nat, part: Part)
    | Ended                          // the job closure is gone

  datatype Answer = Value | Closed | Pending

  /**
   `caller` is submit's share of the permit and of the slot, later the completion's;
   `job` is the closure's share. `result`, `closed` and `waker` are the slot's fields,
   `wake` is a waker the worker has taken and not run yet. `called` and `taken` record
   that the work ran and that its value was polled; `asleep` that the last poll was told
   to wait and nobody woke it since.
   */
  datatype Job = Job(
    stage: Stage, caller: bool, job: bool,
    result: bool, closed: bool, waker: bool, wake: bool,
    called: bool, taken: bool, asleep: bool, answers: seq<Answer>)

  datatype Worker = NotStarted | Idle | Busy(j: nat) | Exited

  datatype Sender = Fresh | Open | Taken

  datatype World = World(
    count: nat, closed: bool, sender: Sender, lock: Option<nat>,
    queue: seq<nat>, workers: seq<Worker>, jobs: seq<Job>)

  const INIT := World(0, false, Fresh, None, [], [NotStarted, NotStarted, NotStarted], [])

  const NEW_JOB := Job(Admitted, false, false, false, false, false, false, false, false, false, [])

  datatype Step =
    // submit
    | Enter
    | Reserve(j: nat)
    | Lock(j: nat)
    | Send(j: nat)
    | Unwind(j: nat)
    // close
    | SetClosed
    | TakeSender
    // worker threads
    | Receive(k: nat)
    | HangUp(k: nat)
    | Judge(k: nat)
    | Start(k: nat)
    | Finish(k: nat)
    | Release(k: nat)
    | End(k: nat)
    | DropChannel
    | DropShare(k: nat)
    | DropSlot(k: nat)
    // the completion
    | Poll(j: nat)
    | DropCompletion(j: nat)

  // ----- helpers -----

  /** `Arc<Permit>` is alive while either share is. */
  predicate HasPermit(job: Job)
  {
    job.caller || job.job
  }

  predicate Connected(workers: seq<Worker>)
  {
    exists k :: 0 <= k < WORKERS && k < |workers| && (workers[k].Idle? || workers[k].Busy?)
  }

  predicate HandedOut(stage: Stage)
  {
    stage.Queued? || stage.At? || stage.Ended?
  }

  predicate InStage(w: World, j: nat, stage: Stage)
  {
    j < |w.jobs| && w.jobs[j].stage == stage
  }

  predicate WorkingOn(w: World, k: nat, part: Part)
  {
    k < |w.workers| && w.workers[k].Busy? && InStage(w, w.workers[k].j, At(k, part))
  }

  /** The count after a job's shares changed: the last share to go decrements it. */
  function Recount(count: nat, was: Job, now: Job): nat
  {
    if HasPermit(was) && !HasPermit(now) && count > 0 then count - 1 else count
  }

  function Put(w: World, j: nat, now: Job): World
    requires j < |w.jobs|
  {
    w.(jobs := w.jobs[j := now], count := Recount(w.count, w.jobs[j], now))
  }

  // ----- steps -----

  predicate Enabled(w: World, s: Step)
  {
    match s
    case Enter => !w.closed
    case Reserve(j) => InStage(w, j, Admitted)
    case Lock(j) => InStage(w, j, Reserved) && w.lock.None?
    case Send(j) => InStage(w, j, Locked) && w.lock == Some(j)
    case Unwind(j) => InStage(w, j, Failing)
    case SetClosed => true
    case TakeSender => w.closed && w.lock.None?
    case Receive(k) => k < WORKERS && k < |w.workers| && w.workers[k].Idle? && w.queue != [] && InStage(w, w.queue[0], Queued)
    case HangUp(k) => k < WORKERS && k < |w.workers| && w.workers[k].Idle? && w.queue == [] && w.sender.Taken?
    case Judge(k) => WorkingOn(w, k, Received)
    case Start(k) => WorkingOn(w, k, Approved)
    case Finish(k) => WorkingOn(w, k, Running)
    case Release(k) => WorkingOn(w, k, Stored)
    case End(k) => WorkingOn(w, k, Released)
    case DropChannel =>
      && w.sender != Fresh && !Connected(w.workers) && |w.workers| == THREADS && w.workers[RECEIVER].Idle?
      && w.queue != [] && InStage(w, w.queue[0], Queued)
    case DropShare(k) => WorkingOn(w, k, Dropping) || WorkingOn(w, k, SlotDropped)
    case DropSlot(k) => WorkingOn(w, k, Dropping) || WorkingOn(w, k, ShareDropped)
    case Poll(j) => j < |w.jobs| && HandedOut(w.jobs[j].stage) && w.jobs[j].caller
    case DropCompletion(j) => j < |w.jobs| && HandedOut(w.jobs[j].stage) && w.jobs[j].caller
  }

  function ApplyReserve(w: World, j: nat): World
    requires InStage(w, j, Admitted)
  {
    if w.count < MAX_WORK then
      w.(count := w.count + 1, jobs := w.jobs[j := w.jobs[j].(stage := Reserved, caller := true, job := true)])
    else w.(jobs := w.jobs[j := w.jobs[j].(stage := Refused)])
  }

  function ApplyLock(w: World, j: nat): World
    requires InStage(w, j, Reserved)
  {
    if w.closed then w.(jobs := w.jobs[j := w.jobs[j].(stage := Failing)])
    else w.(lock := Some(j), jobs := w.jobs[j := w.jobs[j].(stage := Locked)])
  }

  /** The first submission creates the channel and the workers. */
  function Opened(w: World): World
  {
    if w.sender.Fresh? then w.(sender := Open, workers := [Idle, Idle, Idle]) else w
  }

  function ApplySend(w: World, j: nat): World
    requires InStage(w, j, Locked)
  {
    var o := Opened(w).(lock := None);
    if Connected(o.workers) && |o.queue| < MAX_WORK then
      o.(queue := o.queue + [j], jobs := o.jobs[j := o.jobs[j].(stage := Queued)])
    else o.(jobs := o.jobs[j := o.jobs[j].(stage := Failing)])
  }

  function ApplyUnwind(w: World, j: nat): World
    requires InStage(w, j, Failing)
  {
    Put(w, j, w.jobs[j].(stage := Refused, caller := false, job := false))
  }

  /** A thread takes the job at the head of the channel. */
  function TakeHead(w: World, k: nat, part: Part): World
    requires k < |w.workers| && w.queue != [] && w.queue[0] < |w.jobs|
  {
    var j := w.queue[0];
    w.(queue := w.queue[1..], workers := w.workers[k := Busy(j)],
       jobs := w.jobs[j := w.jobs[j].(stage := At(k, part))])
  }

  /** A worker that sees the closed flag drops the job it holds, and exits after that. */
  function ApplyJudge(w: World, k: nat): World
    requires Enabled(w, Judge(k))
  {
    var j := w.workers[k].j;
    Put(w, j, w.jobs[j].(stage := At(k, if w.closed then Dropping else Approved)))
  }

  /** The closure first checks whether its completion still exists; if not it only returns its share. */
  function ApplyStart(w: World, k: nat): World
    requires Enabled(w, Start(k))
  {
    var j := w.workers[k].j;
    if w.jobs[j].caller then Put(w, j, w.jobs[j].(stage := At(k, Running), called := true))
    else Put(w, j, w.jobs[j].(stage := Ended, job := false)).(workers := w.workers[k := Idle])
  }

  /** The value is stored if the completion still exists, and its waker taken. */
  function Finishing(job: Job, k: nat): Job
  {
    if job.caller then job.(stage := At(k, Stored), result := true, waker := false, wake := job.waker)
    else job.(stage := At(k, Stored))
  }

  function ApplyFinish(w: World, k: nat): World
    requires Enabled(w, Finish(k))
  {
    Put(w, w.workers[k].j, Finishing(w.jobs[w.workers[k].j], k))
  }

  function ApplyRelease(w: World, k: nat): World
    requires Enabled(w, Release(k))
  {
    var j := w.workers[k].j;
    Put(w, j, w.jobs[j].(stage := At(k, Released), job := false))
  }

  /** The slot is closed, and both the waker found in it and the one taken before are run. */
  function Ending(job: Job): Job
  {
    if job.caller then
      job.(stage := Ended, closed := true, waker := false, wake := false,
           asleep := job.asleep && !job.waker && !job.wake)
    else job.(stage := Ended, wake := false)
  }

  function ApplyEnd(w: World, k: nat): World
    requires Enabled(w, End(k))
  {
    Put(w, w.workers[k].j, Ending(w.jobs[w.workers[k].j])).(workers := w.workers[k := Idle])
  }

  // Dropping an unrun closure drops its share of the permit and its end of the slot, in
  // an order that the language leaves open.

  function ShareGone(job: Job, stage: Stage): Job
  {
    job.(stage := stage, job := false)
  }

  /** `JobCompletion::drop` closes the slot, if the completion still has it, and runs its waker. */
  function SlotGone(job: Job, stage: Stage): Job
  {
    if job.caller then job.(stage := stage, closed := true, waker := false, asleep := job.asleep && !job.waker)
    else job.(stage := stage)
  }

  /** A worker exits once the job is dropped; the dropped channel goes on to its next job. */
  function AfterDrop(w: World, k: nat): seq<Worker>
    requires k < |w.workers|
  {
    w.workers[k := if k == RECEIVER then Idle else Exited]
  }

  function ApplyDropShare(w: World, k: nat): World
    requires Enabled(w, DropShare(k))
  {
    var j := w.workers[k].j;
    if w.jobs[j].stage.part.Dropping? then Put(w, j, ShareGone(w.jobs[j], At(k, ShareDropped)))
    else Put(w, j, ShareGone(w.jobs[j], Ended)).(workers := AfterDrop(w, k))
  }

  function ApplyDropSlot(w: World, k: nat): World
    requires Enabled(w, DropSlot(k))
  {
    var j := w.workers[k].j;
    if w.jobs[j].stage.part.Dropping? then Put(w, j, SlotGone(w.jobs[j], At(k, SlotDropped)))
    else Put(w, j, SlotGone(w.jobs[j], Ended)).(workers := AfterDrop(w, k))
  }

  function PollAnswer(job: Job): Answer
  {
    if job.result then Value else if job.closed then Closed else Pending
  }

  function Polled(job: Job): Job
  {
    var told := job.(answers := job.answers + [PollAnswer(job)]);
    match PollAnswer(job)
    case Value => told.(result := false, taken := true, asleep := false)
    case Closed => told.(asleep := false)
    case Pending => told.(waker := true, asleep := true)
  }

  function ApplyPoll(w: World, j: nat): World
    requires Enabled(w, Poll(j))
  {
    Put(w, j, Polled(w.jobs[j]))
  }

  function ApplyDropCompletion(w: World, j: nat): World
    requires Enabled(w, DropCompletion(j))
  {
    Put(w, j, w.jobs[j].(caller := false, asleep := false))
  }

  function Apply(w: World, s: Step): World
    requires Enabled(w, s)
  {
    match s
    case Enter => w.(jobs := w.jobs + [NEW_JOB])
    case Reserve(j) => ApplyReserve(w, j)
    case Lock(j) => ApplyLock(w, j)
    case Send(j) => ApplySend(w, j)
    case Unwind(j) => ApplyUnwind(w, j)
    case SetClosed => w.(closed := true)
    case TakeSender => w.(sender := if w.sender.Open? then Taken else w.sender)
    case Receive(k) => TakeHead(w, k, Received)
    case HangUp(k) => w.(workers := w.workers[k := Exited])
    case Judge(k) => ApplyJudge(w, k)
    case Start(k) => ApplyStart(w, k)
    case Finish(k) => ApplyFinish(w, k)
    case Release(k) => ApplyRelease(w, k)
    case End(k) => ApplyEnd(w, k)
    case DropChannel => TakeHead(w, RECEIVER, Dropping)
    case DropShare(k) => ApplyDropShare(w, k)
    case DropSlot(k) => ApplyDropSlot(w, k)
    case Poll(j) => ApplyPoll(w, j)
    case DropCompletion(j) => ApplyDropCompletion(w, j)
  }

  predicate Valid(w: World, run: seq<Step>)
    decreases |run|
  {
    run == [] || (Enabled(w, run[0]) && Valid(Apply(w, run[0]), run[1..]))
  }

  function Exec(w: World, run: seq<Step>): World
    requires Valid(w, run)
    decreases |run|
  {
    if run == [] then w else Exec(Apply(w, run[0]), run[1..])
  }

  // ----- the invariant -----

  function Permits(jobs: seq<Job>): set<nat>
  {
    set j: nat | j < |jobs| && HasPermit(jobs[j])
  }

  predicate ValueBefore(answers: seq<Answer>, a: nat)
  {
    exists b :: 0 <= b < a && b < |answers| && answers[b].Value?
  }

  /** The closure has dropped its end of the slot. */
  predicate SlotSettled(stage: Stage)
  {
    stage.Ended? || (stage.At? && stage.part.SlotDropped?)
  }

  /** The closure is being dropped unrun. */
  predicate BeingDropped(stage: Stage)
  {
    stage.At? && stage.part in {Dropping, ShareDropped, SlotDropped}
  }

  /** What one job's fields say, whatever the other jobs do. */
  predicate JobInv(job: Job)
  {
    && (job.job <==>
          job.stage in {Reserved, Locked, Failing, Queued} || (job.stage.At? && job.stage.part !in {Released, ShareDropped}))
    && (job.stage in {Reserved, Locked, Failing} ==> job.caller)
    && (job.stage in {Admitted, Refused} ==> !job.caller)
    && (job.called ==> job.stage.Ended? || (job.stage.At? && job.stage.part in {Running, Stored, Released}))
    && (job.stage.At? && job.stage.part in {Running, Stored, Released} ==> job.called)
    && (job.result || job.taken ==> job.called)
    && !(job.result && job.taken)
    && (job.caller && job.called && !(job.stage.At? && job.stage.part.Running?) ==> job.result || job.taken)
    && (job.stage.At? && job.stage.part.Running? ==> !job.result && !job.taken)
    && (job.closed ==> SlotSettled(job.stage))
    && (job.caller && SlotSettled(job.stage) ==> job.closed)
    && (job.asleep ==> job.waker || (job.wake && job.stage.At? && job.stage.part in {Stored, Released}))
    && (job.waker ==> !SlotSettled(job.stage) || !job.caller)
    && (job.asleep ==> job.caller && HandedOut(job.stage))
    && (!HandedOut(job.stage) ==> job.answers == [])
    && (Value in job.answers <==> job.taken)
    && (forall a, b :: 0 <= a < b < |job.answers| && job.answers[a].Value? ==> !job.answers[b].Value?)
    && (Closed in job.answers ==> job.closed)
    && (job.called ==> forall a :: 0 <= a < |job.answers| && job.answers[a].Closed? ==> ValueBefore(job.answers, a))
  }

  predicate QueueInv(w: World)
  {
    && (forall i :: 0 <= i < |w.queue| ==> InStage(w, w.queue[i], Queued))
    && (forall i, k :: 0 <= i < k < |w.queue| ==> w.queue[i] != w.queue[k])
    && (forall j :: 0 <= j < |w.jobs| && w.jobs[j].stage.Queued? ==> j in w.queue)
    && (w.lock.Some? ==> InStage(w, w.lock.value, Locked))
    && (forall j :: 0 <= j < |w.jobs| && w.jobs[j].stage.Locked? ==> w.lock == Some(j))
  }

  predicate WorkerInv(w: World)
  {
    && |w.workers| == THREADS
    && (forall k :: 0 <= k < THREADS && w.workers[k].Busy? ==>
          w.workers[k].j < |w.jobs| && w.jobs[w.workers[k].j].stage.At? && w.jobs[w.workers[k].j].stage.worker == k)
    && (forall j :: 0 <= j < |w.jobs| && w.jobs[j].stage.At? ==>
          && w.jobs[j].stage.worker < THREADS && w.workers[w.jobs[j].stage.worker] == Busy(j)
          && (BeingDropped(w.jobs[j].stage) ==> w.closed)
          && (w.jobs[j].stage.worker == RECEIVER ==> BeingDropped(w.jobs[j].stage)))
  }

  predicate LifeInv(w: World)
  {
    && |w.workers| == THREADS
    && (w.sender.Taken? ==> w.closed && w.lock.None?)
    && (forall k :: 0 <= k < THREADS ==> (w.workers[k].NotStarted? <==> w.sender.Fresh?))
    && (w.sender.Fresh? ==> w.queue == [])
    && (forall k :: 0 <= k < THREADS ==> (w.workers[k].Exited? ==> w.closed && k != RECEIVER))
  }

  /** A job that is over for a completion that still exists was called, unless the executor is closed. */
  predicate Excused(job: Job, closed: bool)
  {
    job.stage.Ended? && job.caller && !job.called ==> closed
  }

  predicate Inv(w: World)
  {
    && (forall j {:trigger Excused(w.jobs[j], w.closed)} :: 0 <= j < |w.jobs| ==> Excused(w.jobs[j], w.closed))
    && w.count == |Permits(w.jobs)| <= MAX_WORK
    && (forall j {:trigger JobInv(w.jobs[j])} :: 0 <= j < |w.jobs| ==> JobInv(w.jobs[j]))
    && QueueInv(w) && WorkerInv(w) && LifeInv(w)
  }
}
