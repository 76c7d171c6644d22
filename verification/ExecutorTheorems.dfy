/** What the executor guarantees in every interleaving. */
module ExecutorTheorems {
  import opened Common
  import opened Executor
  import opened ExecutorInvariant

  ghost predicate Reachable(w: World)
  {
    exists run :: Valid(INIT, run) && w == Exec(INIT, run)
  }

  lemma {:induction false} ReachableInv(w: World)
    requires Reachable(w)
    ensures Inv(w)
  {
    var run :| Valid(INIT, run) && w == Exec(INIT, run);
    assert Permits([]) == {};
    RunKeepsInv(INIT, run);
  }

  // ----- admission -----

  /** The count is the number of live permits and never exceeds 16. */
  lemma {:induction false} CountIsLivePermits(w: World)
    requires Reachable(w)
    ensures w.count == |Permits(w.jobs)| <= 16
  {
    ReachableInv(w);
  }

  /** A send is refused only because every worker is gone, and then the executor is closed. */
  lemma {:induction false} SendNeverFindsItFull(w: World, j: nat)
    requires Reachable(w) && Enabled(w, Send(j))
    ensures Connected(Opened(w).workers) <==> ApplySend(w, j).jobs[j].stage.Queued?
    ensures !Connected(Opened(w).workers) ==> w.closed
  {
    ReachableInv(w);
    RoomToSend(w, j);
    if !Connected(Opened(w).workers) {
      OpenedInv(w);
      UnconnectedIsClosed(Opened(w));
    }
  }

  /** A permit is given exactly while fewer than 16 are out, and the submission goes on exactly while open. */
  lemma {:induction false} AdmissionExactly(w: World, j: nat)
    ensures InStage(w, j, Admitted) ==>
              var v := ApplyReserve(w, j);
              && (w.count < 16 ==> InStage(v, j, Reserved) && v.count == w.count + 1 && v.jobs[j].caller && v.jobs[j].job)
              && (w.count >= 16 ==> InStage(v, j, Refused) && v.count == w.count && v.jobs[j].caller == w.jobs[j].caller)
    ensures InStage(w, j, Reserved) ==>
              (w.closed ==> InStage(ApplyLock(w, j), j, Failing)) && (!w.closed ==> InStage(ApplyLock(w, j), j, Locked))
    ensures InStage(w, j, Failing) ==> InStage(ApplyUnwind(w, j), j, Refused) && !HasPermit(ApplyUnwind(w, j).jobs[j])
  {
  }

  /** Work runs on two threads only, one job on each at a time. */
  lemma {:induction false} AtMostTwoRun(w: World, i: nat, j: nat)
    requires Reachable(w) && i < |w.jobs| && j < |w.jobs|
    requires w.jobs[i].stage.At? && w.jobs[j].stage.At? && !BeingDropped(w.jobs[i].stage) && !BeingDropped(w.jobs[j].stage)
    ensures w.jobs[i].stage.worker < 2 && w.jobs[j].stage.worker < 2
    ensures w.jobs[i].stage.worker == w.jobs[j].stage.worker ==> i == j
  {
    ReachableInv(w);
  }

  lemma {:induction false} WhoLeaves(w: World, s: Step, k: nat)
    requires Enabled(w, s) && k < |w.workers| && k < |Apply(w, s).workers|
    requires !w.workers[k].Exited? && Apply(w, s).workers[k].Exited?
    ensures s == HangUp(k) || s == DropShare(k) || s == DropSlot(k)
  {
  }

  lemma {:induction false} DropperHolds(w: World, s: Step, k: nat)
    requires Inv(w) && Enabled(w, s) && (s == DropShare(k) || s == DropSlot(k))
    ensures WorkerInv(w) && k < THREADS && w.workers[k].Busy? && w.closed && !w.jobs[w.workers[k].j].called
  {
    assert JobInv(w.jobs[w.workers[k].j]);
  }

  /** A worker leaves only after close: idle through an empty, hung-up channel, or having dropped a job unrun. */
  lemma {:induction false} WorkerLeavesAfterClose(w: World, s: Step, k: nat)
    requires Inv(w) && Enabled(w, s) && k < |w.workers| && k < |Apply(w, s).workers|
    requires !w.workers[k].Exited? && Apply(w, s).workers[k].Exited?
    ensures w.closed
    ensures || (w.workers[k].Idle? && w.queue == [] && w.sender.Taken?)
            || (w.workers[k].Busy? && WorkerInv(w) && !w.jobs[w.workers[k].j].called)
  {
    WhoLeaves(w, s, k);
    if s != HangUp(k) { DropperHolds(w, s, k); }
  }

  // ----- completions -----

  /** A job that is over, run or discarded, has resolved its completion and left nobody asleep. */
  lemma {:induction false} EndedIsResolved(w: World, j: nat)
    requires Reachable(w) && j < |w.jobs| && w.jobs[j].stage.Ended? && w.jobs[j].caller
    ensures PollAnswer(w.jobs[j]) != Pending && !w.jobs[j].asleep
    ensures w.jobs[j].called ==> PollAnswer(w.jobs[j]) == Value || Value in w.jobs[j].answers
  {
    ReachableInv(w);
    assert JobInv(w.jobs[j]);
  }

  /** A poll, exactly: the value once if it is there, else closed, else the caller is put to sleep. */
  lemma {:induction false} PollExactly(job: Job)
    ensures Polled(job).answers == job.answers + [if job.result then Value else if job.closed then Closed else Pending]
    ensures job.result ==> !Polled(job).result && Polled(job).taken
    ensures Polled(job).asleep <==> !job.result && !job.closed
    ensures Polled(job).asleep ==> Polled(job).waker
    ensures Polled(job).stage == job.stage && Polled(job).caller == job.caller && Polled(job).job == job.job
  {
  }

  /** Publishing, exactly: the value is stored and its waker taken, then the slot is closed and every waker run. */
  lemma {:induction false} PublishExactly(job: Job, k: nat)
    ensures job.caller ==> Finishing(job, k).result && !Finishing(job, k).waker && (Finishing(job, k).wake <==> job.waker)
    ensures job.caller ==>
              && Ending(job).closed && !Ending(job).waker && !Ending(job).wake
              && (Ending(job).asleep <==> job.asleep && !job.waker && !job.wake)
    ensures !job.caller ==> Finishing(job, k) == job.(stage := At(k, Stored)) && !Ending(job).wake
    ensures Finishing(job, k).job == job.job && Ending(job).job == job.job
  {
  }

  /** While the executor is open, a job that is over was called, or its completion was dropped. */
  lemma {:induction false} OpenExecutorRuns(w: World, j: nat)
    requires Reachable(w) && !w.closed && j < |w.jobs| && w.jobs[j].stage.Ended? && w.jobs[j].caller
    ensures w.jobs[j].called && (PollAnswer(w.jobs[j]) == Value || Value in w.jobs[j].answers)
  {
    ReachableInv(w);
    assert JobInv(w.jobs[j]) && Excused(w.jobs[j], w.closed);
  }

  /** The value is delivered at most once, only if the work ran, and `Closed` never comes before it. */
  lemma {:induction false} AnswersAreHonest(w: World, j: nat, a: nat, b: nat)
    requires Reachable(w) && j < |w.jobs| && a < |w.jobs[j].answers| && b < |w.jobs[j].answers|
    ensures w.jobs[j].answers[a] == Value ==> w.jobs[j].called
    ensures w.jobs[j].answers[a] == Value && w.jobs[j].answers[b] == Value ==> a == b
    ensures w.jobs[j].answers[a] == Closed && w.jobs[j].called ==> ValueBefore(w.jobs[j].answers, a)
  {
    ReachableInv(w);
    assert JobInv(w.jobs[j]);
  }

  /** Step `s`, which is not the caller's own, wakes the completion of `j`. */
  predicate Wakes(w: World, s: Step, j: nat)
    requires Enabled(w, s)
  {
    && j < |w.jobs| && j < |Apply(w, s).jobs| && s != Poll(j) && s != DropCompletion(j)
    && w.jobs[j].asleep && !Apply(w, s).jobs[j].asleep
  }

  /**
   A waiting completion is woken while the job still has its share of the permit exactly
   when the closure is being dropped unrun and its end of the slot goes first. The
   completion of work that was called is woken only after the share was given back.
   */
  lemma {:induction false} WokenAfterRelease(w: World, s: Step, j: nat)
    requires Reachable(w) && Enabled(w, s) && Wakes(w, s, j)
    ensures Apply(w, s).jobs[j].job <==> w.jobs[j].stage.At? && w.jobs[j].stage.part.Dropping?
    ensures w.jobs[j].called ==> !Apply(w, s).jobs[j].job
  {
    ReachableInv(w);
    assert JobInv(w.jobs[j]);
    if s.DropShare? || s.DropSlot? { WokenByDrop(w, s, j); }
    else if IsWorkerStep(s) { WokenByWorker(w, s, j); }
    else { OthersLeaveAsleep(w, s, j); }
  }

  lemma {:induction false} WokenByDrop(w: World, s: Step, j: nat)
    requires Enabled(w, s) && (s.DropShare? || s.DropSlot?) && j < |w.jobs| && JobInv(w.jobs[j])
    ensures j < |Apply(w, s).jobs|
    ensures Wakes(w, s, j) ==>
              (Apply(w, s).jobs[j].job <==> w.jobs[j].stage.At? && w.jobs[j].stage.part.Dropping?)
  {
  }

  lemma {:induction false} WokenByWorker(w: World, s: Step, j: nat)
    requires Enabled(w, s) && IsWorkerStep(s) && !s.DropShare? && !s.DropSlot? && j < |w.jobs| && JobInv(w.jobs[j])
    ensures j < |Apply(w, s).jobs|
    ensures Wakes(w, s, j) ==> s.End? && !Apply(w, s).jobs[j].job && w.jobs[j].called
  {
    match s
    case Receive(k) => assert Apply(w, s) == TakeHead(w, k, Received);
    case HangUp(k) => assert Apply(w, s).jobs == w.jobs;
    case Judge(k) => assert Apply(w, s) == ApplyJudge(w, k);
    case Start(k) => assert Apply(w, s) == ApplyStart(w, k);
    case Finish(k) => assert Apply(w, s) == ApplyFinish(w, k);
    case Release(k) => assert Apply(w, s) == ApplyRelease(w, k);
    case End(k) => assert Apply(w, s) == ApplyEnd(w, k);
    case DropChannel => assert Apply(w, s) == TakeHead(w, RECEIVER, Dropping);
  }

  lemma {:induction false} OthersLeaveAsleep(w: World, s: Step, j: nat)
    requires Enabled(w, s) && !IsWorkerStep(s) && j < |w.jobs| && s != Poll(j) && s != DropCompletion(j)
    requires JobInv(w.jobs[j]) && w.jobs[j].asleep
    ensures Apply(w, s).jobs[j].asleep
  {
  }

  // ----- a waiter woken while the dropped closure still has its share -----

  lemma {:induction false} ExecAppend(w: World, run: seq<Step>, s: Step)
    requires Valid(w, run) && Enabled(Exec(w, run), s)
    ensures Valid(w, run + [s]) && Exec(w, run + [s]) == Apply(Exec(w, run), s)
    decreases |run|
  {
    if run == [] {
      assert run + [s] == [s] && [s][1..] == [];
    } else {
      ExecAppend(Apply(w, run[0]), run[1..], s);
      assert (run + [s])[1..] == run[1..] + [s];
    }
  }

  lemma {:induction false} StepReachable(w: World, s: Step)
    requires Reachable(w) && Enabled(w, s)
    ensures Reachable(Apply(w, s))
  {
    var run :| Valid(INIT, run) && w == Exec(INIT, run);
    ExecAppend(INIT, run, s);
  }

  /** A run with one job in the channel. */
  lemma {:induction false} SampleQueued() returns (w: World)
    ensures Reachable(w) && |w.jobs| == 1 && w.queue == [0] && w.workers == [Idle, Idle, Idle]
    ensures w.jobs[0] == NEW_JOB.(stage := Queued, caller := true, job := true)
  {
    w := INIT;
    assert Valid(w, []) && Exec(w, []) == w;
    StepReachable(w, Enter); w := Apply(w, Enter);
    StepReachable(w, Reserve(0)); w := Apply(w, Reserve(0));
    StepReachable(w, Lock(0)); w := Apply(w, Lock(0));
    assert Connected([Idle, Idle, Idle]) by { assert [Idle, Idle, Idle][0].Idle?; }
    StepReachable(w, Send(0)); w := Apply(w, Send(0));
  }

  lemma {:induction false} SampleDropping() returns (w: World)
    ensures Reachable(w) && WorkingOn(w, 0, Dropping) && w.workers[0].j == 0
    ensures w.jobs[0].asleep && w.jobs[0].caller && w.jobs[0].waker && w.jobs[0].job
  {
    w := SampleQueued();
    StepReachable(w, Poll(0)); w := Apply(w, Poll(0));
    StepReachable(w, SetClosed); w := Apply(w, SetClosed);
    StepReachable(w, Receive(0)); w := Apply(w, Receive(0));
    StepReachable(w, Judge(0)); w := Apply(w, Judge(0));
  }

  /** Close while a polled job is in the channel: its waiter can be woken with the share still held. */
  lemma {:induction false} WokenBeforeRelease() returns (w: World, s: Step)
    ensures Reachable(w) && Enabled(w, s) && Wakes(w, s, 0) && Apply(w, s).jobs[0].job
  {
    w := SampleDropping();
    s := DropSlot(0);
  }

  /** The completion is gone and the work has not been called. */
  predicate Cancelled(w: World, j: nat)
  {
    j < |w.jobs| && HandedOut(w.jobs[j].stage) && !w.jobs[j].caller && !w.jobs[j].called
  }

  lemma {:induction false} WorkerStepKeepsCancelled(w: World, s: Step, j: nat)
    requires Enabled(w, s) && IsWorkerStep(s) && Cancelled(w, j)
    ensures Cancelled(Apply(w, s), j)
  {
    match s
    case Receive(k) => assert Apply(w, s) == TakeHead(w, k, Received);
    case HangUp(k) => assert Apply(w, s).jobs == w.jobs;
    case Judge(k) => assert Apply(w, s) == ApplyJudge(w, k);
    case Start(k) => assert Apply(w, s) == ApplyStart(w, k);
    case Finish(k) => assert Apply(w, s) == ApplyFinish(w, k);
    case Release(k) => assert Apply(w, s) == ApplyRelease(w, k);
    case End(k) => assert Apply(w, s) == ApplyEnd(w, k);
    case DropChannel => assert Apply(w, s) == TakeHead(w, RECEIVER, Dropping);
    case DropShare(k) => assert Apply(w, s) == ApplyDropShare(w, k);
    case DropSlot(k) => assert Apply(w, s) == ApplyDropSlot(w, k);
  }

  lemma {:induction false} StepKeepsCancelled(w: World, s: Step, j: nat)
    requires Enabled(w, s) && Cancelled(w, j)
    ensures Cancelled(Apply(w, s), j)
  {
    if IsWorkerStep(s) { WorkerStepKeepsCancelled(w, s, j); }
  }

  /** Work whose completion is dropped before it starts is never called. */
  lemma {:induction false} CancelledNeverRuns(w: World, run: seq<Step>, j: nat)
    requires Valid(w, run) && Cancelled(w, j)
    ensures Cancelled(Exec(w, run), j)
    decreases |run|
  {
    if run != [] {
      StepKeepsCancelled(w, run[0], j);
      CancelledNeverRuns(Apply(w, run[0]), run[1..], j);
    }
  }

  // ----- close -----

  /** `close` has returned: the flag is set and the sender is gone. */
  predicate CloseReturned(w: World)
  {
    w.closed && !w.sender.Open? && w.lock.None?
  }

  /** The two operations of `close` bring this about, whatever happened between them. */
  lemma {:induction false} CloseReturns(u: World, w: World)
    ensures Apply(u, SetClosed).closed
    ensures Inv(w) && w.closed && w.lock.None? ==> Enabled(w, TakeSender) && CloseReturned(Apply(w, TakeSender))
  {
  }

  /** No worker is left and the channel is empty. */
  predicate Stopped(w: World)
  {
    w.queue == [] && forall k :: 0 <= k < |w.workers| ==> !w.workers[k].Busy? && (k != RECEIVER ==> !w.workers[k].Idle?)
  }

  /** Once the workers have stopped, every completion still held is resolved. */
  lemma {:induction false} StoppedIsResolved(w: World, j: nat)
    requires Inv(w) && Stopped(w) && j < |w.jobs| && HandedOut(w.jobs[j].stage)
    ensures w.jobs[j].stage.Ended?
    ensures w.jobs[j].caller ==> PollAnswer(w.jobs[j]) != Pending && !w.jobs[j].asleep
  {
    assert JobInv(w.jobs[j]);
  }

  predicate IsWorkerStep(s: Step)
  {
    s.Receive? || s.HangUp? || s.Judge? || s.Start? || s.Finish? || s.Release? || s.End? || s.DropChannel?
    || s.DropShare? || s.DropSlot?
  }

  lemma {:induction false} StaysClosed(w: World, s: Step)
    requires Inv(w) && CloseReturned(w) && Enabled(w, s)
    ensures CloseReturned(Apply(w, s))
  {
  }

  /** What is left to do for a thread that got this far with a job. */
  function PartLoad(part: Part): nat
  {
    match part
    case Received => 6
    case Approved => 5
    case Running => 4
    case Stored => 3
    case Released => 2
    case Dropping => 3
    case ShareDropped => 2
    case SlotDropped => 2
  }

  function Load(w: World, k: nat): nat
    requires WorkerInv(w) && k < THREADS
  {
    match w.workers[k]
    case NotStarted => 0
    case Exited => 0
    case Idle => 1
    case Busy(j) => PartLoad(w.jobs[j].stage.part)
  }

  function Remaining(w: World): nat
    requires WorkerInv(w)
  {
    6 * |w.queue| + Load(w, 0) + Load(w, 1) + Load(w, RECEIVER)
  }

  /** From `w` to `v` only thread `k` moved, and only job `j` changed. */
  predicate OnlyMoved(w: World, v: World, k: nat, j: nat)
  {
    && k < |w.workers| == |v.workers| && j < |w.jobs| == |v.jobs|
    && (forall m :: 0 <= m < |w.workers| && m != k ==> v.workers[m] == w.workers[m])
    && (forall m :: 0 <= m < |w.jobs| && m != j ==> v.jobs[m] == w.jobs[m])
  }

  lemma {:induction false} OthersKeepLoad(w: World, v: World, k: nat, j: nat, m: nat)
    requires WorkerInv(w) && WorkerInv(v) && OnlyMoved(w, v, k, j) && m < THREADS && m != k
    requires w.workers[k] == Busy(j) || v.workers[k] == Busy(j)
    ensures Load(v, m) == Load(w, m)
  {
  }

  lemma {:induction false} LessRemains(w: World, v: World, k: nat, j: nat)
    requires WorkerInv(w) && WorkerInv(v) && OnlyMoved(w, v, k, j) && k < THREADS
    requires w.workers[k] == Busy(j) || v.workers[k] == Busy(j)
    requires 6 * |v.queue| + Load(v, k) < 6 * |w.queue| + Load(w, k)
    ensures Remaining(v) < Remaining(w)
  {
    if k != 0 { OthersKeepLoad(w, v, k, j, 0); }
    if k != 1 { OthersKeepLoad(w, v, k, j, 1); }
    if k != RECEIVER { OthersKeepLoad(w, v, k, j, RECEIVER); }
  }

  lemma {:induction false} TakeHeadConsumes(w: World, k: nat, part: Part)
    requires WorkerInv(w) && k < THREADS && w.workers[k].Idle? && w.queue != [] && w.queue[0] < |w.jobs|
    requires WorkerInv(TakeHead(w, k, part))
    ensures Remaining(TakeHead(w, k, part)) < Remaining(w)
  {
    LessRemains(w, TakeHead(w, k, part), k, w.queue[0]);
  }

  lemma {:induction false} HangUpConsumes(w: World, k: nat)
    requires WorkerInv(w) && k < WORKERS && w.workers[k].Idle?
    ensures WorkerInv(w.(workers := w.workers[k := Exited]))
    ensures Remaining(w.(workers := w.workers[k := Exited])) < Remaining(w)
  {
  }

  /** The thread moves its job to a later part. */
  lemma {:induction false} AdvanceConsumes(w: World, k: nat, now: Job)
    requires WorkerInv(w) && k < THREADS && w.workers[k].Busy?
    requires now.stage.At? && PartLoad(now.stage.part) < PartLoad(w.jobs[w.workers[k].j].stage.part)
    requires WorkerInv(Put(w, w.workers[k].j, now))
    ensures Remaining(Put(w, w.workers[k].j, now)) < Remaining(w)
  {
    LessRemains(w, Put(w, w.workers[k].j, now), k, w.workers[k].j);
  }

  /** The thread is done with its job. */
  lemma {:induction false} LeaveConsumes(w: World, k: nat, now: Job, then_: Worker)
    requires WorkerInv(w) && k < THREADS && w.workers[k].Busy? && (then_.Idle? || then_.Exited?)
    requires WorkerInv(Put(w, w.workers[k].j, now).(workers := w.workers[k := then_]))
    ensures Remaining(Put(w, w.workers[k].j, now).(workers := w.workers[k := then_])) < Remaining(w)
  {
    LessRemains(w, Put(w, w.workers[k].j, now).(workers := w.workers[k := then_]), k, w.workers[k].j);
  }

  lemma {:induction false} DropShareConsumes(w: World, k: nat)
    requires Enabled(w, DropShare(k)) && WorkerInv(w) && WorkerInv(ApplyDropShare(w, k))
    ensures Remaining(ApplyDropShare(w, k)) < Remaining(w)
  {
    var job := w.jobs[w.workers[k].j];
    if job.stage.part.Dropping? { AdvanceConsumes(w, k, ShareGone(job, At(k, ShareDropped))); }
    else { LeaveConsumes(w, k, ShareGone(job, Ended), if k == RECEIVER then Idle else Exited); }
  }

  lemma {:induction false} DropSlotConsumes(w: World, k: nat)
    requires Enabled(w, DropSlot(k)) && WorkerInv(w) && WorkerInv(ApplyDropSlot(w, k))
    ensures Remaining(ApplyDropSlot(w, k)) < Remaining(w)
  {
    var job := w.jobs[w.workers[k].j];
    if job.stage.part.Dropping? { AdvanceConsumes(w, k, SlotGone(job, At(k, SlotDropped))); }
    else { LeaveConsumes(w, k, SlotGone(job, Ended), if k == RECEIVER then Idle else Exited); }
  }

  lemma {:induction false} JudgeConsumes(w: World, k: nat)
    requires Enabled(w, Judge(k)) && WorkerInv(w) && WorkerInv(ApplyJudge(w, k))
    ensures Remaining(ApplyJudge(w, k)) < Remaining(w)
  {
    var job := w.jobs[w.workers[k].j];
    AdvanceConsumes(w, k, job.(stage := At(k, if w.closed then Dropping else Approved)));
  }

  lemma {:induction false} StartConsumes(w: World, k: nat)
    requires Enabled(w, Start(k)) && WorkerInv(w) && WorkerInv(ApplyStart(w, k))
    ensures Remaining(ApplyStart(w, k)) < Remaining(w)
  {
    var job := w.jobs[w.workers[k].j];
    if job.caller { AdvanceConsumes(w, k, job.(stage := At(k, Running), called := true)); }
    else { LeaveConsumes(w, k, job.(stage := Ended, job := false), Idle); }
  }

  lemma {:induction false} PublishConsumes(w: World, k: nat)
    requires WorkerInv(w)
    ensures Enabled(w, Finish(k)) && WorkerInv(ApplyFinish(w, k)) ==> Remaining(ApplyFinish(w, k)) < Remaining(w)
    ensures Enabled(w, Release(k)) && WorkerInv(ApplyRelease(w, k)) ==> Remaining(ApplyRelease(w, k)) < Remaining(w)
    ensures Enabled(w, End(k)) && WorkerInv(ApplyEnd(w, k)) ==> Remaining(ApplyEnd(w, k)) < Remaining(w)
  {
    if k < THREADS && w.workers[k].Busy? {
      var job := w.jobs[w.workers[k].j];
      if Enabled(w, Finish(k)) && WorkerInv(ApplyFinish(w, k)) { AdvanceConsumes(w, k, Finishing(job, k)); }
      if Enabled(w, Release(k)) && WorkerInv(ApplyRelease(w, k)) { AdvanceConsumes(w, k, job.(stage := At(k, Released), job := false)); }
      if Enabled(w, End(k)) && WorkerInv(ApplyEnd(w, k)) { LeaveConsumes(w, k, Ending(job), Idle); }
    }
  }

  lemma {:induction false} WorkerStepConsumes(w: World, s: Step)
    requires Enabled(w, s) && IsWorkerStep(s)
    requires WorkerInv(w) && WorkerInv(Apply(w, s))
    ensures Remaining(Apply(w, s)) < Remaining(w)
  {
    match s
    case Receive(k) => TakeHeadConsumes(w, k, Received);
    case DropChannel => TakeHeadConsumes(w, RECEIVER, Dropping);
    case HangUp(k) => HangUpConsumes(w, k);
    case Judge(k) => JudgeConsumes(w, k);
    case Start(k) => StartConsumes(w, k);
    case Finish(k) => PublishConsumes(w, k);
    case Release(k) => PublishConsumes(w, k);
    case End(k) => PublishConsumes(w, k);
    case DropShare(k) => DropShareConsumes(w, k);
    case DropSlot(k) => DropSlotConsumes(w, k);
  }

  /** Nothing changed for thread `k`. */
  predicate Unmoved(w: World, v: World, k: nat)
    requires WorkerInv(w) && WorkerInv(v) && k < THREADS
  {
    v.workers[k] == w.workers[k] &&
    (w.workers[k].Busy? ==> v.jobs[w.workers[k].j].stage == w.jobs[w.workers[k].j].stage)
  }

  lemma {:induction false} OtherStepLeavesWorkers(w: World, s: Step, k: nat)
    requires Enabled(w, s) && !IsWorkerStep(s) && CloseReturned(w)
    requires WorkerInv(w) && WorkerInv(Apply(w, s)) && k < THREADS
    ensures Load(Apply(w, s), k) == Load(w, k) && Apply(w, s).queue == w.queue
  {
    assert Unmoved(w, Apply(w, s), k);
  }

  lemma {:induction false} OtherStepAddsNothing(w: World, s: Step)
    requires Enabled(w, s) && !IsWorkerStep(s) && CloseReturned(w)
    requires WorkerInv(w) && WorkerInv(Apply(w, s))
    ensures Remaining(Apply(w, s)) == Remaining(w)
  {
    OtherStepLeavesWorkers(w, s, 0);
    OtherStepLeavesWorkers(w, s, 1);
    OtherStepLeavesWorkers(w, s, RECEIVER);
  }

  /** Until they stop, some thread can move: at most application code keeps it waiting. */
  lemma {:induction false} WorkersCanMove(w: World) returns (s: Step)
    requires Inv(w) && CloseReturned(w) && !Stopped(w)
    ensures IsWorkerStep(s) && Enabled(w, s)
  {
    if k :| 0 <= k < WORKERS && w.workers[k].Idle? {
      s := if w.queue != [] then Receive(k) else HangUp(k);
      assert w.queue != [] ==> InStage(w, w.queue[0], Queued);
    } else if k :| 0 <= k < THREADS && w.workers[k].Busy? {
      s := BusyCanMove(w, k);
    } else {
      s := DropChannel;
      assert !Connected(w.workers);
      assert w.queue != [] && InStage(w, w.queue[0], Queued);
    }
  }

  function WorkerSteps(run: seq<Step>): nat
  {
    if run == [] then 0 else (if IsWorkerStep(run[0]) then 1 else 0) + WorkerSteps(run[1..])
  }

  lemma {:induction false} ClosingRun(w: World, run: seq<Step>)
    requires Inv(w) && CloseReturned(w) && Valid(w, run)
    ensures Inv(Exec(w, run)) && CloseReturned(Exec(w, run))
    ensures Remaining(Exec(w, run)) + WorkerSteps(run) <= Remaining(w)
    decreases |run|
  {
    if run != [] {
      StepKeepsInv(w, run[0]);
      StaysClosed(w, run[0]);
      if IsWorkerStep(run[0]) { WorkerStepConsumes(w, run[0]); } else { OtherStepAddsNothing(w, run[0]); }
      ClosingRun(Apply(w, run[0]), run[1..]);
    }
  }

  /** No thread of the executor can take another step. */
  ghost predicate Quiescent(w: World)
  {
    forall s :: IsWorkerStep(s) ==> !Enabled(w, s)
  }

  lemma {:induction false} QuiescentIsStopped(w: World)
    requires Inv(w) && CloseReturned(w) && Quiescent(w)
    ensures Stopped(w)
  {
    if !Stopped(w) {
      var s := WorkersCanMove(w);
      assert false;
    }
  }

  lemma {:induction false} RemainingBounded(w: World)
    requires Inv(w)
    ensures Remaining(w) <= 6 * MAX_WORK + 18
  {
    QueueBounded(w);
  }

  /**
   After close has returned, whatever callers do, the workers take a bounded number of
   further steps; and when none of them can take another one, every completion still
   held has been resolved.
   */
  lemma {:induction false} CloseResolvesEverything(w: World, run: seq<Step>, j: nat)
    requires Reachable(w) && CloseReturned(w) && Valid(w, run)
    ensures WorkerInv(w) && WorkerSteps(run) <= Remaining(w) <= 6 * MAX_WORK + 18
    ensures Quiescent(Exec(w, run)) && j < |Exec(w, run).jobs|
            && HandedOut(Exec(w, run).jobs[j].stage) && Exec(w, run).jobs[j].caller
            ==> PollAnswer(Exec(w, run).jobs[j]) != Pending
  {
    ReachableInv(w);
    ClosingRun(w, run);
    RemainingBounded(w);
    var end := Exec(w, run);
    if Quiescent(end) && j < |end.jobs| && HandedOut(end.jobs[j].stage) {
      QuiescentIsStopped(end);
      StoppedIsResolved(end, j);
    }
  }

  // ----- service while open -----

  /** A submission that is sent adds at most one job and, the first time, three idle threads. */
  function Sends(run: seq<Step>): nat
  {
    if run == [] then 0 else (if run[0].Send? then 1 else 0) + Sends(run[1..])
  }

  lemma {:induction false} SendAdds(w: World, j: nat)
    requires Enabled(w, Send(j)) && WorkerInv(w) && LifeInv(w) && WorkerInv(ApplySend(w, j))
    ensures Remaining(ApplySend(w, j)) <= Remaining(w) + 9
  {
    var v := ApplySend(w, j);
    assert |v.queue| <= |w.queue| + 1;
    if w.sender.Fresh? {
      assert Load(w, 0) == 0 && Load(w, 1) == 0 && Load(w, RECEIVER) == 0;
      assert v.workers == [Idle, Idle, Idle];
    } else {
      assert v.workers == w.workers;
      forall k | 0 <= k < THREADS ensures Load(v, k) == Load(w, k) { }
    }
  }

  lemma {:induction false} CallerLeavesThreads(w: World, s: Step, k: nat)
    requires Enabled(w, s) && !IsWorkerStep(s) && !s.Send?
    requires WorkerInv(w) && WorkerInv(Apply(w, s)) && k < THREADS
    ensures Load(Apply(w, s), k) == Load(w, k) && Apply(w, s).queue == w.queue
  {
    assert Unmoved(w, Apply(w, s), k);
  }

  /** In any run the threads take a number of steps bounded by the jobs sent. */
  lemma {:induction false} ServiceRun(w: World, run: seq<Step>)
    requires Inv(w) && Valid(w, run)
    ensures Inv(Exec(w, run))
    ensures Remaining(Exec(w, run)) + WorkerSteps(run) <= Remaining(w) + 9 * Sends(run)
    decreases |run|
  {
    if run != [] {
      var s := run[0];
      StepKeepsInv(w, s);
      if IsWorkerStep(s) {
        WorkerStepConsumes(w, s);
      } else if s.Send? {
        SendAdds(w, s.j);
      } else {
        CallerLeavesThreads(w, s, 0);
        CallerLeavesThreads(w, s, 1);
        CallerLeavesThreads(w, s, RECEIVER);
      }
      ServiceRun(Apply(w, s), run[1..]);
    }
  }

  /** A busy thread can always go on: at most application code keeps it waiting. */
  lemma {:induction false} BusyCanMove(w: World, k: nat) returns (s: Step)
    requires Inv(w) && k < THREADS && w.workers[k].Busy?
    ensures IsWorkerStep(s) && Enabled(w, s)
  {
    s := match w.jobs[w.workers[k].j].stage.part
      case Received => Judge(k)
      case Approved => Start(k)
      case Running => Finish(k)
      case Stored => Release(k)
      case Released => End(k)
      case Dropping => DropShare(k)
      case ShareDropped => DropSlot(k)
      case SlotDropped => DropShare(k);
  }

  /**
   An open executor serves every job it accepted: over any run its threads take at most
   nine steps for each job sent, and when none of them can take another one every job
   handed out is over, and was called unless its completion was dropped.
   */
  lemma {:induction false} OpenExecutorServes(run: seq<Step>, j: nat)
    requires Valid(INIT, run) && !Exec(INIT, run).closed
    ensures WorkerSteps(run) <= 9 * Sends(run)
    ensures var w := Exec(INIT, run);
            Quiescent(w) && j < |w.jobs| && HandedOut(w.jobs[j].stage) ==>
              w.jobs[j].stage.Ended? && (w.jobs[j].caller ==> w.jobs[j].called && PollAnswer(w.jobs[j]) != Pending)
  {
    var w := Exec(INIT, run);
    assert Permits([]) == {};
    ServiceRun(INIT, run);
    if Quiescent(w) && j < |w.jobs| && HandedOut(w.jobs[j].stage) {
      IdleHasServed(w, j);
      assert JobInv(w.jobs[j]) && Excused(w.jobs[j], w.closed);
    }
  }

  lemma {:induction false} IdleHasServed(w: World, j: nat)
    requires Inv(w) && !w.closed && Quiescent(w) && j < |w.jobs| && HandedOut(w.jobs[j].stage)
    ensures w.jobs[j].stage.Ended?
  {
    if w.jobs[j].stage.At? {
      var s := BusyCanMove(w, w.jobs[j].stage.worker);
      assert false;
    } else if w.jobs[j].stage.Queued? {
      assert w.queue != [] && InStage(w, w.queue[0], Queued) && !w.workers[0].NotStarted? && !w.workers[0].Exited?;
      if w.workers[0].Busy? {
        var s := BusyCanMove(w, 0);
        assert false;
      } else {
        assert IsWorkerStep(Receive(0)) && Enabled(w, Receive(0));
      }
    }
  }

  lemma {:induction false} QueueBounded(w: World)
    requires Inv(w)
    ensures |w.queue| <= MAX_WORK
  {
    SetOf(w.queue);
    forall x | x in Members(w.queue) ensures x in Permits(w.jobs) {
      assert JobInv(w.jobs[x]);
    }
    Included(Members(w.queue), Permits(w.jobs));
  }
}
