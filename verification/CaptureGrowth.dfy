/** No step of the capture protocol forgets: histories grow, retirement and spent ids are final. */
module CaptureGrowth {
  import opened Common
  import opened Tickets
  import opened Capture
  import opened CaptureProtocol
  import opened CaptureInvariant

  /** Request `i` keeps its history, and its id is never made active or retained again. */
  ghost predicate Kept(w: World, v: World, i: nat)
    requires i in w.reqs
  {
    && i in v.reqs
    && Older(w.reqs[i].ticket, v.reqs[i].ticket)
    && v.reqs[i].epoch == w.reqs[i].epoch
    && (IsActive(v.st, i) ==> IsActive(w.st, i) && (Spoiled(w.st, w.st.active.value) ==> Spoiled(v.st, v.st.active.value)))
    && (IsRetained(v.st, i) ==> IsActive(w.st, i) || v.st.retained == w.st.retained)
  }

  ghost predicate Grows(w: World, v: World)
  {
    && v.generation == w.generation && (v.hostActive ==> w.hostActive)
    && v.st.nextId >= w.st.nextId && (w.st.closed ==> v.st.closed)
    && forall i :: i in w.reqs ==> Kept(w, v, i)
  }

  lemma {:induction false} SectionGrows(w: World, st: State)
    requires st.nextId == w.st.nextId && (w.st.closed ==> st.closed)
    requires forall i :: i in w.reqs ==> Undisturbed(w.st, st, i)
    ensures Grows(w, w.(st := st))
  {
    var v := w.(st := st);
    forall i | i in w.reqs ensures Kept(w, v, i) {}
  }

  lemma {:induction false} RequestGrows(w: World, pool: Pool, i: nat, r: Request)
    requires i in w.reqs
    requires Older(w.reqs[i].ticket, r.ticket) && r.epoch == w.reqs[i].epoch
    ensures Grows(w, w.(pool := pool, reqs := w.reqs[i := r]))
  {
    var v := w.(pool := pool, reqs := w.reqs[i := r]);
    forall j | j in w.reqs ensures Kept(w, v, j) {}
  }

  lemma {:induction false} TicketGrows(w: World, pool: Pool, i: nat, t: Ticket<Outcome>)
    requires i in w.reqs
    requires Older(w.reqs[i].ticket, t)
    ensures Grows(w, SetTicket(w, i, t).(pool := pool))
  {
    RequestGrows(w, pool, i, w.reqs[i].(ticket := t));
  }

  lemma {:induction false} InterruptGrows(w: World, st: State, e: CaptureError)
    requires Superseded(w.st, st)
    ensures Grows(w, Interrupt(w, st, e))
  {
    var v := Interrupt(w, st, e);
    forall i | i in w.reqs ensures Kept(w, v, i) {}
  }

  lemma {:induction false} TimeOutGrows(w: World, i: nat)
    requires i in w.reqs
    ensures Grows(w, TimeOut(w, i))
  {
    var v := TimeOut(w, i);
    forall j | j in w.reqs ensures Kept(w, v, j) {}
  }

  lemma {:induction false} WorkerTimeoutGrows(w: World, i: nat)
    requires i in w.reqs && w.reqs[i].ticket.worker.Firing?
    ensures var v := TimeOut(w, i); Grows(w, SetTicket(v, i, v.reqs[i].ticket.(worker := Done)))
  {
    TimeOutGrows(w, i);
    var u := TimeOut(w, i);
    var v := SetTicket(u, i, u.reqs[i].ticket.(worker := Done));
    forall j | j in w.reqs ensures Kept(w, v, j) { assert Kept(w, u, j); }
  }

  lemma {:induction false} ClaimGrows(w: World, options: Options)
    requires Inv(w) && w.pool.loose > 0
    ensures Grows(w, ApplyClaim(w, options))
  {
    var v := ApplyClaim(w, options);
    forall i | i in w.reqs ensures Kept(w, v, i) {}
  }

  lemma {:induction false} CallbackGrows(w: World, i: nat, result: Result<Image, CaptureError>, seen: bool, late: bool)
    requires Inv(w) && i in w.reqs && w.reqs[i].native
    ensures Grows(w, ApplyCallback(w, i, result, seen, late))
  {
    var v := ApplyCallback(w, i, result, seen, late);
    assert Sound(w, i);
    CalledBack(w.st, w.hostActive, w.generation, w.pool.holders, i, w.reqs[i], result, seen, late);
    assert Kept(w, v, i);
    forall j | j in w.reqs && j != i ensures Kept(w, v, j) { assert Undisturbed(w.st, v.st, j); }
  }

  lemma {:induction false} AbortGrows(w: World, i: nat)
    requires i in w.reqs
    ensures Grows(w, ApplyAbort(w, i))
  {
    var v := ApplyAbort(w, i);
    forall j | j in w.reqs ensures Kept(w, v, j) {}
  }

  lemma {:induction false} DropGrows(w: World, i: nat)
    requires i in w.reqs
    ensures Grows(w, ApplyDrop(w, i))
  {
    var v := ApplyDrop(w, i);
    forall j | j in w.reqs ensures Kept(w, v, j) {}
  }

  lemma {:induction false} PollRetiredGrows(w: World, i: nat)
    requires i in w.reqs
    ensures Grows(w, w.(st := CloseLocked(w.st), reqs := w.reqs[i := Report(w.reqs[i], Held, Err(Closed))]))
  {
    var v := w.(st := CloseLocked(w.st), reqs := w.reqs[i := Report(w.reqs[i], Held, Err(Closed))]);
    forall j | j in w.reqs ensures Kept(w, v, j) {}
  }

  lemma {:induction false} OpeningGrows(w: World, s: Step)
    requires Enabled(w, s) && (s.StartDeadline? || s.Submit? || s.HandOut? || s.WorkerWake? || s.WorkerExit?)
    requires s.StartDeadline? ==> w.reqs[s.id].ticket.worker.Unstarted?
    ensures Grows(w, Apply(w, s))
  {
    var i := s.id;
    var t := w.reqs[i].ticket;
    match s
    case StartDeadline(_, spawned) =>
      if spawned { TicketGrows(w, w.pool, i, t.(phase := Timed, worker := Waiting)); }
      else { TicketGrows(w, Release(w.pool, i), i, t.(phase := Failed, worker := Exited)); }
    case Submit(_, accepted) =>
      if accepted { RequestGrows(w, w.pool, i, w.reqs[i].(native := true, ticket := t.(phase := Submitted))); }
      else { TicketGrows(w, w.pool, i, t.(phase := Failed)); }
    case HandOut(_) => TicketGrows(w, w.pool, i, t.(phase := Held));
    case WorkerWake(_) => TicketGrows(w, w.pool, i, Wake(t));
    case WorkerExit(_) => TicketGrows(w, Release(w.pool, i), i, t.(worker := Exited));
  }

  lemma {:induction false} PollStepGrows(w: World, s: Step)
    requires Enabled(w, s) && (s.Expire? || s.Complete? || s.Validate? || s.FreeSlot?)
    ensures Grows(w, Apply(w, s))
  {
    var i := s.id;
    var t := w.reqs[i].ticket;
    match s
    case Expire(_) => TicketGrows(w, w.pool, i, t.(expired := true));
    case Complete(_, o) => TicketGrows(w, w.pool, i, Settle(t, o));
    case Validate(_, seen) => RequestGrows(w, w.pool, i, Report(w.reqs[i], Held, ValidateLocked(w.st, t.phase.answer.value, seen)));
    case FreeSlot(_) => TicketGrows(w, w.pool, i, t.(phase := Gone));
  }

  lemma {:induction false} PollSlotGrows(w: World, i: nat)
    requires i in w.reqs && w.reqs[i].ticket.slot.Some?
    ensures Grows(w, ApplyPollSlot(w, i))
  {
    RequestGrows(w, w.pool, i, ApplyPollSlot(w, i).reqs[i]);
  }

  lemma {:induction false} NavigateGrows(w: World, e: nat)
    requires GlobalInv(w) && Enabled(w, Navigate(e))
    ensures Grows(w, Apply(w, Navigate(e)))
  {
    var st := InvalidateLocked(w.st, e, false);
    InterruptGrows(w, st, Cancelled);
    var u := Interrupt(w, st, Cancelled);
    var v := u.(lastEpoch := e);
    forall i | i in w.reqs ensures Kept(w, v, i) { assert Kept(w, u, i); }
  }

  lemma {:induction false} ResizeGrows(w: World)
    requires StateInv(w.st)
    ensures Grows(w, ApplyResize(w))
  {
    if w.st.revision < U64_MAX {
      InterruptGrows(w, ViewportLocked(w.st), Cancelled);
    } else {
      SectionGrows(w, CloseLocked(w.st));
    }
  }

  lemma {:induction false} EnvironmentGrows(w: World, s: Step)
    requires Enabled(w, s)
    requires s.Revoke? || s.ReserveTimer? || s.DocumentFinished? || s.Close? || s.ReleaseContent?
    ensures Grows(w, Apply(w, s))
  {
    match s
    case DocumentFinished(e, seen) => SectionGrows(w, FinishedLocked(w.st, e, seen));
    case Close => SectionGrows(w, CloseLocked(w.st));
    case ReleaseContent(c, seen) => SectionGrows(w, ReleaseLocked(w.st, w.generation, c, seen).0);
    case Revoke => forall i | i in w.reqs ensures Kept(w, w.(hostActive := false), i) {}
    case ReserveTimer => forall i | i in w.reqs ensures Kept(w, w.(pool := Reserve(w.pool)), i) {}
  }

  /** No step forgets anything: history, retirement and spent ids stay. */
  lemma {:induction false} StepGrows(w: World, s: Step)
    requires Inv(w) && Enabled(w, s)
    ensures Grows(w, Apply(w, s))
  {
    match s
    case Navigate(e) => NavigateGrows(w, e);
    case Resize => ResizeGrows(w);
    case Claim(options) => ClaimGrows(w, options);
    case Abort(i) => AbortGrows(w, i);
    case WorkerTimeout(i) => WorkerTimeoutGrows(w, i);
    case Callback(i, result, seen, late) => CallbackGrows(w, i, result, seen, late);
    case NotifyClosed(observed) => InterruptGrows(w, InvalidateLocked(w.st, SaturatingSucc(observed), true), Closed);
    case PollRetired(i) => PollRetiredGrows(w, i);
    case PollTimeout(i) => TimeOutGrows(w, i);
    case Drop(i) => DropGrows(w, i);
    case Revoke => EnvironmentGrows(w, s);
    case ReserveTimer => EnvironmentGrows(w, s);
    case DocumentFinished(_, _) => EnvironmentGrows(w, s);
    case Close => EnvironmentGrows(w, s);
    case ReleaseContent(_, _) => EnvironmentGrows(w, s);
    case StartDeadline(i, _) => assert Sound(w, i); OpeningGrows(w, s);
    case Submit(_, _) => OpeningGrows(w, s);
    case HandOut(_) => OpeningGrows(w, s);
    case WorkerWake(_) => OpeningGrows(w, s);
    case WorkerExit(_) => OpeningGrows(w, s);
    case Expire(_) => PollStepGrows(w, s);
    case Complete(_, _) => PollStepGrows(w, s);
    case PollSlot(i) => PollSlotGrows(w, i);
    case Validate(_, _) => PollStepGrows(w, s);
    case FreeSlot(_) => PollStepGrows(w, s);
  }

  lemma {:induction false} KeptTransitive(u: World, v: World, w: World, i: nat)
    requires i in u.reqs && Kept(u, v, i) && Kept(v, w, i)
    ensures Kept(u, w, i)
  {
  }

  lemma {:induction false} RunGrows(w: World, run: seq<Step>)
    requires Inv(w) && Valid(w, run)
    ensures Grows(w, Exec(w, run)) && Inv(Exec(w, run))
    decreases |run|
  {
    if run == [] {
      forall i | i in w.reqs ensures Kept(w, w, i) {}
    } else {
      var u := Apply(w, run[0]);
      StepKeepsInv(w, run[0]);
      StepGrows(w, run[0]);
      RunGrows(u, run[1..]);
      var v := Exec(u, run[1..]);
      forall i | i in w.reqs ensures Kept(w, v, i) {
        assert Kept(w, u, i) && Kept(u, v, i);
        KeptTransitive(w, u, v, i);
      }
    }
  }
}
