/**
 The executor as the source writes it: an object whose counter, flag, channel and slots
 change in place. Each small method is one atomic operation and refines the step of that
 name; `Submit` and `Close` string them together as one thread runs them undisturbed.
 */
module ExecutorObject {
  import opened Common
  import opened Executor
  import opened ExecutorInvariant

  datatype WorkError = ErrClosed | ErrOverloaded

  class ApplicationExecutor {
    var count: nat
    var closed: bool
    var sender: Sender
    var lock: Option<nat>
    var queue: seq<nat>
    var workers: seq<Worker>
    var jobs: seq<Job>

    function View(): (w: World)
      reads this
    {
      World(count, closed, sender, lock, queue, workers, jobs)
    }

    constructor ()
      ensures View() == INIT && Inv(View())
    {
      count, closed, sender, lock, queue := 0, false, Fresh, None, [];
      workers, jobs := [NotStarted, NotStarted, NotStarted], [];
      new;
      assert Permits([]) == {};
    }

    method Enter()
      requires Inv(View()) && !closed
      modifies this`jobs
      ensures View() == Apply(old(View()), Executor.Enter) && Inv(View())
      ensures InStage(View(), old(|jobs|), Admitted)
    {
      EnterKeepsInv(View());
      jobs := jobs + [NEW_JOB];
    }

    /** `count.try_update(…)` and the permit it yields. */
    method Reserve(j: nat) returns (ok: bool)
      requires Inv(View()) && Enabled(View(), Executor.Reserve(j))
      modifies this`count, this`jobs
      ensures View() == ApplyReserve(old(View()), j) && Inv(View())
      ensures ok <==> old(count) < MAX_WORK
      ensures ok ==> InStage(View(), j, Reserved)
      ensures count == old(count) + if ok then 1 else 0
    {
      ReserveKeepsInv(View(), j);
      ok := count < MAX_WORK;
      if ok {
        count := count + 1;
        jobs := jobs[j := jobs[j].(stage := Reserved, caller := true, job := true)];
      } else {
        jobs := jobs[j := jobs[j].(stage := Refused)];
      }
    }

    /** Takes the sender mutex and reads the flag again. */
    method Lock(j: nat) returns (ok: bool)
      requires Inv(View()) && Enabled(View(), Executor.Lock(j))
      modifies this`lock, this`jobs
      ensures View() == ApplyLock(old(View()), j) && Inv(View())
      ensures ok <==> !closed
      ensures ok ==> InStage(View(), j, Locked) && lock == Some(j)
    {
      LockKeepsInv(View(), j);
      ok := !closed;
      if ok {
        lock := Some(j);
        jobs := jobs[j := jobs[j].(stage := Locked)];
      } else {
        jobs := jobs[j := jobs[j].(stage := Failing)];
      }
    }

    /** Creates the channel on first use, then `try_send`. */
    method Send(j: nat) returns (ok: bool)
      requires Inv(View()) && Enabled(View(), Executor.Send(j))
      modifies this`sender, this`workers, this`lock, this`queue, this`jobs
      ensures View() == ApplySend(old(View()), j) && Inv(View())
      ensures ok <==> Connected(workers)
      ensures ok ==> InStage(View(), j, Queued) && queue == old(queue) + [j]
      ensures lock.None? && (!closed ==> ok)
    {
      SendKeepsInv(View(), j);
      RoomToSend(View(), j);
      if sender.Fresh? {
        sender := Open;
        workers := [Idle, Idle, Idle];
      }
      lock := None;
      ok := Connected(workers) && |queue| < MAX_WORK;
      if ok {
        queue := queue + [j];
        jobs := jobs[j := jobs[j].(stage := Queued)];
      } else {
        assert !workers[0].Idle? && !workers[0].Busy?;
        jobs := jobs[j := jobs[j].(stage := Failing)];
      }
    }

    /** The critical section of `submit`, entered with a permit while the executor is open. */
    method Deliver(j: nat)
      requires Inv(View()) && InStage(View(), j, Reserved) && lock.None? && !closed
      modifies this`sender, this`workers, this`lock, this`queue, this`jobs
      ensures Inv(View()) && InStage(View(), j, Queued) && lock.None?
      ensures queue == old(queue) + [j]
    {
      var locked := Lock(j);
      var sent := Send(j);
    }

    method SetClosed()
      modifies this`closed
      ensures closed
    {
      closed := true;
    }

    method TakeSender()
      modifies this`sender
      ensures sender == if old(sender).Open? then Taken else old(sender)
    {
      if sender.Open? { sender := Taken; }
    }

    method Close()
      requires Inv(View()) && lock.None?
      modifies this`closed, this`sender
      ensures Inv(View())
      ensures View() == Apply(Apply(old(View()), Executor.SetClosed), Executor.TakeSender)
    {
      SetClosed();
      TakeSender();
    }

    /** One submission with nobody interfering: refused exactly when closed or 16 permits are out. */
    method Submit() returns (r: Result<nat, WorkError>)
      requires Inv(View()) && lock.None?
      modifies this
      ensures Inv(View()) && lock.None? && closed == old(closed)
      ensures r == Err(ErrClosed) <==> old(closed)
      ensures r == Err(ErrOverloaded) <==> !old(closed) && old(count) == 16
      ensures r.Ok? ==> r.value == old(|jobs|) && InStage(View(), r.value, Queued)
      ensures r.Ok? ==> queue == old(queue) + [r.value] && count == old(count) + 1
      ensures r.Err? ==> queue == old(queue) && count == old(count)
    {
      if closed { return Err(ErrClosed); }
      var j := |jobs|;
      Enter();
      var reserved := Reserve(j);
      if !reserved { return Err(ErrOverloaded); }
      Deliver(j);
      return Ok(j);
    }

    /** `Completion::poll` */
    method Poll(j: nat) returns (answer: Answer)
      requires Inv(View()) && Enabled(View(), Executor.Poll(j))
      modifies this`jobs
      ensures View() == ApplyPoll(old(View()), j) && Inv(View())
      ensures answer == PollAnswer(old(jobs)[j])
    {
      PollKeepsInv(View(), j);
      var job := jobs[j];
      if job.result {
        answer := Value;
        job := job.(result := false, taken := true, asleep := false);
      } else if job.closed {
        answer := Answer.Closed;
        job := job.(asleep := false);
      } else {
        answer := Pending;
        job := job.(waker := true, asleep := true);
      }
      job := job.(answers := job.answers + [answer]);
      assert job == Polled(jobs[j]);
      jobs := jobs[j := job];
    }
  }
}
