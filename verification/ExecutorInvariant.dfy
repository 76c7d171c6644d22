/** Every step of the executor keeps its invariant. */
module ExecutorInvariant {
  import opened Common
  import opened Executor

  // ----- counting -----

  lemma {:induction false} Recounted(jobs: seq<Job>, j: nat, now: Job)
    requires j < |jobs|
    ensures |Permits(jobs[j := now])|
         == |Permits(jobs)| + (if HasPermit(now) then 1 else 0) - (if HasPermit(jobs[j]) then 1 else 0)
  {
    var was, next := Permits(jobs), Permits(jobs[j := now]);
    if HasPermit(now) {
      assert next == was + {j};
    } else {
      assert next == was - {j};
    }
  }

  function Members(s: seq<nat>): set<nat>
  {
    set x | x in s
  }

  lemma {:induction false} SetOf(s: seq<nat>)
    requires forall i, k :: 0 <= i < k < |s| ==> s[i] != s[k]
    ensures |Members(s)| == |s|
  {
    if s != [] {
      var front, last := s[..|s| - 1], s[|s| - 1];
      SetOf(front);
      assert last !in Members(front);
      assert Members(s) == Members(front) + {last};
    }
  }

  lemma {:induction false} Included(a: set<nat>, b: set<nat>)
    requires a <= b
    ensures |a| <= |b|
  {
    assert b == a + (b - a);
  }

  /** Every queued job holds a permit and so does the one being sent, so the channel has room. */
  lemma {:induction false} RoomToSend(w: World, j: nat)
    requires Inv(w) && InStage(w, j, Locked)
    ensures |w.queue| < MAX_WORK
  {
    var queued := Members(w.queue);
    SetOf(w.queue);
    forall x | x in queued + {j} ensures x in Permits(w.jobs) && (x == j || w.jobs[x].stage.Queued?) {
      assert JobInv(w.jobs[x]);
    }
    assert j !in queued;
    Included(queued + {j}, Permits(w.jobs));
  }

  // ----- placing -----

  /** Jobs outside the queue, the lock and the workers may change without disturbing them. */
  predicate Outside(stage: Stage)
  {
    !stage.Queued? && !stage.Locked? && !stage.At?
  }

  lemma {:induction false} ElsewhereKeepsPlaces(w: World, j: nat, now: Job)
    requires QueueInv(w) && WorkerInv(w) && j < |w.jobs|
    requires now.stage == w.jobs[j].stage || (Outside(now.stage) && Outside(w.jobs[j].stage))
    ensures var next := w.(jobs := w.jobs[j := now]); QueueInv(next) && WorkerInv(next)
  {
  }

  lemma {:induction false} ElsewhereKeeps(w: World, j: nat, now: Job)
    requires Inv(w) && j < |w.jobs| && JobInv(now) && Excused(now, w.closed)
    requires now.stage == w.jobs[j].stage || (Outside(now.stage) && Outside(w.jobs[j].stage))
    requires HasPermit(now) ==> HasPermit(w.jobs[j])
    ensures Inv(Put(w, j, now))
  {
    Recounted(w.jobs, j, now);
    ElsewhereKeepsPlaces(w, j, now);
    assert QueueInv(Put(w, j, now)) && WorkerInv(Put(w, j, now));
  }

  /** A worker moves its job along. */
  lemma {:induction false} AdvanceKeeps(w: World, k: nat, now: Job)
    requires Inv(w) && k < |w.workers| && w.workers[k].Busy?
    requires JobInv(now) && now.stage.At? && now.stage.worker == k && (BeingDropped(now.stage) ==> w.closed)
    requires k == RECEIVER ==> BeingDropped(now.stage)
    requires HasPermit(now) ==> HasPermit(w.jobs[w.workers[k].j])
    ensures Inv(Put(w, w.workers[k].j, now))
  {
    var j := w.workers[k].j;
    Recounted(w.jobs, j, now);
    assert QueueInv(Put(w, j, now));
    assert WorkerInv(Put(w, j, now));
  }

  /** A worker is done with its job. */
  lemma {:induction false} LeaveKeeps(w: World, k: nat, now: Job, then_: Worker)
    requires Inv(w) && k < |w.workers| && w.workers[k].Busy?
    requires JobInv(now) && now.stage.Ended? && Excused(now, w.closed)
    requires HasPermit(now) ==> HasPermit(w.jobs[w.workers[k].j])
    requires then_.Idle? || (then_.Exited? && w.closed && k != RECEIVER)
    ensures Inv(Put(w, w.workers[k].j, now).(workers := w.workers[k := then_]))
  {
    var j := w.workers[k].j;
    var next := Put(w, j, now).(workers := w.workers[k := then_]);
    Recounted(w.jobs, j, now);
    assert QueueInv(next);
    assert WorkerInv(next);
  }

  // ----- submit -----

  lemma {:induction false} EnterKeepsInv(w: World)
    requires Inv(w)
    ensures Inv(w.(jobs := w.jobs + [NEW_JOB]))
  {
    var next := w.(jobs := w.jobs + [NEW_JOB]);
    assert Permits(next.jobs) == Permits(w.jobs);
    assert QueueInv(next) && WorkerInv(next);
  }

  lemma {:induction false} ReservedJobInv(job: Job)
    requires JobInv(job) && job.stage.Admitted?
    ensures JobInv(job.(stage := Reserved, caller := true, job := true)) && JobInv(job.(stage := Refused))
    ensures !HasPermit(job)
  {
  }

  lemma {:induction false} ReserveKeepsPlaces(w: World, j: nat)
    requires QueueInv(w) && WorkerInv(w) && LifeInv(w) && InStage(w, j, Admitted)
    ensures QueueInv(ApplyReserve(w, j)) && WorkerInv(ApplyReserve(w, j)) && LifeInv(ApplyReserve(w, j))
  {
    ElsewhereKeepsPlaces(w, j, ApplyReserve(w, j).jobs[j]);
  }

  lemma {:induction false} ReserveKeepsInv(w: World, j: nat)
    requires Inv(w) && InStage(w, j, Admitted)
    ensures Inv(ApplyReserve(w, j))
  {
    var next := ApplyReserve(w, j);
    assert JobInv(w.jobs[j]);
    ReservedJobInv(w.jobs[j]);
    Recounted(w.jobs, j, next.jobs[j]);
    ReserveKeepsPlaces(w, j);
  }

  lemma {:induction false} LockKeepsInv(w: World, j: nat)
    requires Inv(w) && InStage(w, j, Reserved) && w.lock.None?
    ensures Inv(ApplyLock(w, j))
  {
    var next := ApplyLock(w, j);
    assert JobInv(w.jobs[j]);
    Recounted(w.jobs, j, next.jobs[j]);
    assert QueueInv(next) && WorkerInv(next);
  }

  lemma {:induction false} OpenedInv(w: World)
    requires WorkerInv(w) && LifeInv(w) && w.lock.Some?
    ensures WorkerInv(Opened(w)) && LifeInv(Opened(w)) && !Opened(w).sender.Fresh?
  {
    if w.sender.Fresh? {
      forall j | 0 <= j < |w.jobs| ensures !w.jobs[j].stage.At? {
        assert w.workers[0].NotStarted? && w.workers[1].NotStarted? && w.workers[2].NotStarted?;
      }
    }
  }

  /** The job being sent joins the queue and the mutex is free again. */
  lemma {:induction false} EnqueueKeepsQueue(w: World, j: nat, now: Job)
    requires QueueInv(w) && InStage(w, j, Locked) && now.stage.Queued?
    ensures QueueInv(w.(lock := None, queue := w.queue + [j], jobs := w.jobs[j := now]))
  {
    var next := w.(lock := None, queue := w.queue + [j], jobs := w.jobs[j := now]);
    assert j !in w.queue;
    forall x | 0 <= x < |next.jobs| && next.jobs[x].stage.Queued? ensures x in next.queue {
      if x == j { assert next.queue[|w.queue|] == j; }
    }
  }

  lemma {:induction false} RejectKeepsQueue(w: World, j: nat, now: Job)
    requires QueueInv(w) && InStage(w, j, Locked) && now.stage.Failing?
    ensures QueueInv(w.(lock := None, jobs := w.jobs[j := now]))
  {
    assert j !in w.queue;
  }

  /** A job that was not with a worker and is not now leaves the workers alone. */
  lemma {:induction false} WorkersUnmoved(w: World, j: nat, now: Job)
    requires WorkerInv(w) && j < |w.jobs| && !w.jobs[j].stage.At? && !now.stage.At?
    ensures WorkerInv(w.(jobs := w.jobs[j := now]))
  {
  }

  lemma {:induction false} SendKeepsQueue(w: World, j: nat)
    requires QueueInv(w) && InStage(w, j, Locked)
    ensures QueueInv(ApplySend(w, j))
  {
    var now := ApplySend(w, j).jobs[j];
    if now.stage.Queued? { EnqueueKeepsQueue(Opened(w), j, now); } else { RejectKeepsQueue(Opened(w), j, now); }
  }

  lemma {:induction false} WorkersFrame(a: World, b: World)
    requires WorkerInv(a) && a.workers == b.workers && a.jobs == b.jobs && a.closed == b.closed
    ensures WorkerInv(b)
  {
  }

  lemma {:induction false} SendKeepsWorkers(w: World, j: nat)
    requires WorkerInv(w) && LifeInv(w) && InStage(w, j, Locked) && w.lock == Some(j)
    ensures WorkerInv(ApplySend(w, j)) && LifeInv(ApplySend(w, j))
  {
    var next := ApplySend(w, j);
    OpenedInv(w);
    WorkersUnmoved(Opened(w), j, next.jobs[j]);
    WorkersFrame(Opened(w).(jobs := w.jobs[j := next.jobs[j]]), next);
  }

  lemma {:induction false} SentJobInv(job: Job)
    requires JobInv(job) && job.stage.Locked?
    ensures JobInv(job.(stage := Queued)) && JobInv(job.(stage := Failing))
    ensures HasPermit(job)
  {
  }

  lemma {:induction false} SendKeepsInv(w: World, j: nat)
    requires Inv(w) && InStage(w, j, Locked) && w.lock == Some(j)
    ensures Inv(ApplySend(w, j))
  {
    var next := ApplySend(w, j);
    assert JobInv(w.jobs[j]);
    SentJobInv(w.jobs[j]);
    Recounted(w.jobs, j, next.jobs[j]);
    SendKeepsQueue(w, j);
    SendKeepsWorkers(w, j);
  }

  lemma {:induction false} UnwindKeepsInv(w: World, j: nat)
    requires Inv(w) && InStage(w, j, Failing)
    ensures Inv(ApplyUnwind(w, j))
  {
    assert JobInv(w.jobs[j]);
    ElsewhereKeeps(w, j, w.jobs[j].(stage := Refused, caller := false, job := false));
  }

  // ----- workers -----

  lemma {:induction false} DequeueKeepsQueue(w: World, now: Job)
    requires QueueInv(w) && w.queue != [] && !now.stage.Queued? && !now.stage.Locked?
    ensures QueueInv(w.(queue := w.queue[1..], jobs := w.jobs[w.queue[0] := now]))
  {
    var next := w.(queue := w.queue[1..], jobs := w.jobs[w.queue[0] := now]);
    assert InStage(w, w.queue[0], Queued);
    forall i | 0 <= i < |next.queue| ensures InStage(next, next.queue[i], Queued) {
      assert next.queue[i] == w.queue[i + 1] && InStage(w, w.queue[i + 1], Queued);
    }
    forall x | 0 <= x < |next.jobs| && next.jobs[x].stage.Queued? ensures x in next.queue {
      assert x != w.queue[0] && w.queue == [w.queue[0]] + w.queue[1..];
    }
  }

  lemma {:induction false} TakeHeadKeepsWorkers(w: World, k: nat, part: Part)
    requires WorkerInv(w) && k < THREADS && w.workers[k].Idle?
    requires w.queue != [] && InStage(w, w.queue[0], Queued) && (BeingDropped(At(k, part)) ==> w.closed)
    requires k == RECEIVER ==> BeingDropped(At(k, part))
    ensures WorkerInv(TakeHead(w, k, part))
  {
  }

  lemma {:induction false} TakenJobInv(job: Job, k: nat, part: Part)
    requires JobInv(job) && job.stage.Queued? && part in {Received, Dropping}
    ensures JobInv(job.(stage := At(k, part)))
  {
  }

  lemma {:induction false} TakeHeadKeepsInv(w: World, k: nat, part: Part)
    requires Inv(w) && k < THREADS && w.workers[k].Idle? && part in {Received, Dropping}
    requires k == RECEIVER ==> part.Dropping?
    requires w.queue != [] && InStage(w, w.queue[0], Queued) && (part.Dropping? ==> w.closed)
    ensures Inv(TakeHead(w, k, part))
  {
    var j := w.queue[0];
    var next := TakeHead(w, k, part);
    assert JobInv(w.jobs[j]);
    TakenJobInv(w.jobs[j], k, part);
    Recounted(w.jobs, j, next.jobs[j]);
    DequeueKeepsQueue(w, next.jobs[j]);
    TakeHeadKeepsWorkers(w, k, part);
    assert QueueInv(next);
  }

  /** The closure's own stages keep its job's fields consistent. */
  lemma {:induction false} ClosureKeepsJobInv(job: Job, k: nat)
    requires JobInv(job) && job.stage.At? && job.stage.worker == k
    ensures job.stage.part.Received? ==> JobInv(job.(stage := At(k, Approved)))
    ensures job.stage.part.Approved? && job.caller ==> JobInv(job.(stage := At(k, Running), called := true))
    ensures job.stage.part.Running? ==> JobInv(Finishing(job, k))
    ensures job.stage.part.Stored? ==> JobInv(job.(stage := At(k, Released), job := false))
    ensures job.stage.part.Released? ==> JobInv(Ending(job))
  {
  }

  /** So do the two halves of dropping it unrun, in either order. */
  lemma {:induction false} DropKeepsJobInv(job: Job, k: nat)
    requires JobInv(job) && job.stage.At? && job.stage.worker == k
    ensures job.stage.part.Received? ==> JobInv(job.(stage := At(k, Dropping)))
    ensures job.stage.part.Approved? && !job.caller ==> JobInv(job.(stage := Ended, job := false))
    ensures job.stage.part.Dropping? ==>
              JobInv(ShareGone(job, At(k, ShareDropped))) && JobInv(SlotGone(job, At(k, SlotDropped)))
    ensures job.stage.part.SlotDropped? ==> JobInv(ShareGone(job, Ended))
    ensures job.stage.part.ShareDropped? ==> JobInv(SlotGone(job, Ended))
  {
  }

  lemma {:induction false} StartKeepsInv(w: World, k: nat)
    requires Inv(w) && Enabled(w, Start(k))
    ensures Inv(ApplyStart(w, k))
  {
    var job := w.jobs[w.workers[k].j];
    assert JobInv(job);
    ClosureKeepsJobInv(job, k);
    DropKeepsJobInv(job, k);
    if job.caller { AdvanceKeeps(w, k, job.(stage := At(k, Running), called := true)); }
    else { LeaveKeeps(w, k, job.(stage := Ended, job := false), Idle); }
  }

  lemma {:induction false} JudgeKeepsInv(w: World, k: nat)
    requires Inv(w) && Enabled(w, Judge(k))
    ensures Inv(ApplyJudge(w, k))
  {
    var job := w.jobs[w.workers[k].j];
    assert JobInv(job);
    ClosureKeepsJobInv(job, k);
    DropKeepsJobInv(job, k);
    AdvanceKeeps(w, k, job.(stage := At(k, if w.closed then Dropping else Approved)));
  }

  lemma {:induction false} FinishKeepsInv(w: World, k: nat)
    requires Inv(w) && Enabled(w, Finish(k))
    ensures Inv(ApplyFinish(w, k))
  {
    var job := w.jobs[w.workers[k].j];
    assert JobInv(job);
    ClosureKeepsJobInv(job, k);
    AdvanceKeeps(w, k, Finishing(job, k));
  }

  lemma {:induction false} ReleaseKeepsInv(w: World, k: nat)
    requires Inv(w) && Enabled(w, Release(k))
    ensures Inv(ApplyRelease(w, k))
  {
    var job := w.jobs[w.workers[k].j];
    assert JobInv(job);
    ClosureKeepsJobInv(job, k);
    AdvanceKeeps(w, k, job.(stage := At(k, Released), job := false));
  }

  lemma {:induction false} EndKeepsInv(w: World, k: nat)
    requires Inv(w) && Enabled(w, End(k))
    ensures Inv(ApplyEnd(w, k))
  {
    var job := w.jobs[w.workers[k].j];
    assert JobInv(job);
    ClosureKeepsJobInv(job, k);
    LeaveKeeps(w, k, Ending(job), Idle);
  }

  lemma {:induction false} DropStepKeepsInv(w: World, s: Step)
    requires Inv(w) && Enabled(w, s) && (s.DropShare? || s.DropSlot?)
    ensures Inv(Apply(w, s))
  {
    var k := s.k;
    var job := w.jobs[w.workers[k].j];
    var after := if k == RECEIVER then Idle else Exited;
    assert JobInv(job) && w.closed;
    DropKeepsJobInv(job, k);
    if s.DropShare? {
      if job.stage.part.Dropping? { AdvanceKeeps(w, k, ShareGone(job, At(k, ShareDropped))); }
      else { LeaveKeeps(w, k, ShareGone(job, Ended), after); }
    } else {
      if job.stage.part.Dropping? { AdvanceKeeps(w, k, SlotGone(job, At(k, SlotDropped))); }
      else { LeaveKeeps(w, k, SlotGone(job, Ended), after); }
    }
  }

  /** A dropped channel has no worker left, which happens only after close. */
  lemma {:induction false} UnconnectedIsClosed(w: World)
    requires LifeInv(w) && !w.sender.Fresh? && !Connected(w.workers)
    ensures w.closed
  {
    var first := w.workers[0];
    assert !first.Idle? && !first.Busy?;
  }

  // ----- completions -----

  lemma {:induction false} PolledJobInv(job: Job)
    requires JobInv(job) && HandedOut(job.stage) && job.caller
    ensures JobInv(Polled(job)) && Polled(job).stage == job.stage
  {
    var now := Polled(job);
    var n := |job.answers|;
    assert forall a :: 0 <= a < n ==> now.answers[a] == job.answers[a];
    if job.called {
      forall a | 0 <= a < |now.answers| && now.answers[a].Closed? ensures ValueBefore(now.answers, a) {
        if a < n {
          var b :| 0 <= b < a && b < n && job.answers[b].Value?;
          assert now.answers[b].Value?;
        } else {
          assert Value in job.answers;
        }
      }
    }
  }

  lemma {:induction false} PollKeepsInv(w: World, j: nat)
    requires Inv(w) && Enabled(w, Poll(j))
    ensures Inv(ApplyPoll(w, j))
  {
    assert JobInv(w.jobs[j]);
    assert Excused(w.jobs[j], w.closed);
    PolledJobInv(w.jobs[j]);
    ElsewhereKeeps(w, j, Polled(w.jobs[j]));
  }

  lemma {:induction false} DropCompletionKeepsInv(w: World, j: nat)
    requires Inv(w) && Enabled(w, DropCompletion(j))
    ensures Inv(ApplyDropCompletion(w, j))
  {
    assert JobInv(w.jobs[j]);
    assert Excused(w.jobs[j], w.closed);
    ElsewhereKeeps(w, j, w.jobs[j].(caller := false, asleep := false));
  }

  /** The steps of `submit`, `close`, the completions, and of a worker that finds nothing left. */
  predicate IsCallerStep(s: Step)
  {
    || s.Enter? || s.Reserve? || s.Lock? || s.Send? || s.Unwind? || s.SetClosed? || s.TakeSender? || s.HangUp?
    || s.Poll? || s.DropCompletion?
  }

  lemma {:induction false} CallerStepKeepsInv(w: World, s: Step)
    requires Inv(w) && Enabled(w, s) && IsCallerStep(s)
    ensures Inv(Apply(w, s))
  {
    match s
    case Enter => EnterKeepsInv(w);
    case Reserve(j) => ReserveKeepsInv(w, j);
    case Lock(j) => LockKeepsInv(w, j);
    case Send(j) => SendKeepsInv(w, j);
    case Unwind(j) => UnwindKeepsInv(w, j);
    case SetClosed =>
    case TakeSender =>
    case HangUp(k) => HangUpKeepsInv(w, k);
    case Poll(j) => PollKeepsInv(w, j);
    case DropCompletion(j) => DropCompletionKeepsInv(w, j);
  }

  lemma {:induction false} HangUpKeepsInv(w: World, k: nat)
    requires Inv(w) && Enabled(w, HangUp(k))
    ensures Inv(w.(workers := w.workers[k := Exited]))
  {
    assert WorkerInv(w.(workers := w.workers[k := Exited]));
  }

  lemma {:induction false} ThreadStepKeepsInv(w: World, s: Step)
    requires Inv(w) && Enabled(w, s) && !IsCallerStep(s)
    ensures Inv(Apply(w, s))
  {
    match s
    case Receive(k) => TakeHeadKeepsInv(w, k, Received);
    case Judge(k) => JudgeKeepsInv(w, k);
    case Start(k) => StartKeepsInv(w, k);
    case Finish(k) => FinishKeepsInv(w, k);
    case Release(k) => ReleaseKeepsInv(w, k);
    case End(k) => EndKeepsInv(w, k);
    case DropChannel =>
      UnconnectedIsClosed(w);
      TakeHeadKeepsInv(w, RECEIVER, Dropping);
    case DropShare(_) => DropStepKeepsInv(w, s);
    case DropSlot(_) => DropStepKeepsInv(w, s);
  }

  lemma {:induction false} StepKeepsInv(w: World, s: Step)
    requires Inv(w) && Enabled(w, s)
    ensures Inv(Apply(w, s))
  {
    if IsCallerStep(s) { CallerStepKeepsInv(w, s); } else { ThreadStepKeepsInv(w, s); }
  }

  lemma {:induction false} RunKeepsInv(w: World, run: seq<Step>)
    requires Inv(w) && Valid(w, run)
    ensures Inv(Exec(w, run))
    decreases |run|
  {
    if run != [] {
      StepKeepsInv(w, run[0]);
      RunKeepsInv(Apply(w, run[0]), run[1..]);
    }
  }
}
