/** No step of the clipboard protocol forgets: marks, tokens and spent ids stay. */
module ClipboardGrowth {
  import opened Common
  import opened Tickets
  import opened Clipboard
  import opened ClipboardProtocol
  import opened ClipboardInvariant

  /** The native reply only moves on. */
  function Stage(c: Completion): nat
  {
    match c
    case NotTaken => 0
    case Taken(_, _, _) => 1
    case TimerFinished(_, _, _) => 2
    case Answered => 3
  }

  /** Request `i` keeps its marks, its history and its token, and is never made active again. */
  ghost predicate Kept(w: World, v: World, i: nat)
    requires i in w.reqs
  {
    && i in v.reqs
    && v.reqs[i].token == w.reqs[i].token
    && Older(w.reqs[i].ticket, v.reqs[i].ticket)
    && Stage(w.reqs[i].completion) <= Stage(v.reqs[i].completion)
    && (w.reqs[i].doomed ==> v.reqs[i].doomed)
    && w.reqs[i].writes <= v.reqs[i].writes
    && (IsActive(v.st, i) ==>
          && IsActive(w.st, i)
          && (w.st.active.value.cancelled ==> v.st.active.value.cancelled)
          && (w.st.active.value.timedOut ==> v.st.active.value.timedOut))
    && (w.st.closed ==> v.st.closed)
  }

  /** Only request `i` and the pool change. */
  lemma {:induction false} RequestKept(w: World, pool: Pool, i: nat, r: Request, j: nat)
    requires i in w.reqs && j in w.reqs
    requires Older(w.reqs[i].ticket, r.ticket) && Stage(w.reqs[i].completion) <= Stage(r.completion)
    requires r.token == w.reqs[i].token && (w.reqs[i].doomed ==> r.doomed) && w.reqs[i].writes <= r.writes
    ensures Kept(w, w.(pool := pool, reqs := w.reqs[i := r]), j)
  {
  }

  lemma {:induction false} TicketKept(w: World, pool: Pool, i: nat, t: Ticket<Answer>, j: nat)
    requires i in w.reqs && j in w.reqs && Older(w.reqs[i].ticket, t)
    ensures Kept(w, SetTicket(w, i, t).(pool := pool), j)
  {
  }

  lemma {:induction false} ClaimKept(w: World, t: Token, seen: bool, j: nat)
    requires j in w.reqs && forall i :: i in w.reqs ==> i <= w.st.nextId
    ensures Kept(w, ApplyClaim(w, t, seen), j)
  {
  }

  lemma {:induction false} AbortKept(w: World, i: nat, j: nat)
    requires i in w.reqs && j in w.reqs
    ensures Kept(w, ApplyAbort(w, i), j)
  {
  }

  lemma {:induction false} TimeOutKept(w: World, i: nat, j: nat)
    requires i in w.reqs && j in w.reqs
    ensures Kept(w, TimeOut(w, i), j)
  {
  }

  lemma {:induction false} WorkerTimeoutKept(w: World, i: nat, j: nat)
    requires i in w.reqs && j in w.reqs && w.reqs[i].ticket.worker.Firing?
    ensures Kept(w, ApplyWorkerTimeout(w, i), j)
  {
    TimeOutKept(w, i, j);
  }

  lemma {:induction false} BeginWriteKept(w: World, i: nat, seen: bool, late: bool, j: nat)
    requires i in w.reqs && j in w.reqs
    ensures Kept(w, ApplyBeginWrite(w, i, seen, late), j)
  {
  }

  lemma {:induction false} CallbackKept(w: World, i: nat, result: Answer, seen: bool, j: nat)
    requires i in w.reqs && j in w.reqs && (IsActive(w.st, i) ==> w.reqs[i].completion.NotTaken?)
    ensures Kept(w, ApplyCallback(w, i, result, seen), j)
  {
  }

  lemma {:induction false} CancelKept(w: World, i: nat, reason: ClipboardError, j: nat)
    requires i in w.reqs && j in w.reqs
    ensures Kept(w, CancelRequest(w, i, reason), j)
  {
  }

  lemma {:induction false} CloseKept(w: World, j: nat)
    requires j in w.reqs
    ensures Kept(w, w.(st := CloseSilentLocked(w.st)), j)
  {
  }

  lemma {:induction false} DropKept(w: World, i: nat, j: nat)
    requires i in w.reqs && j in w.reqs
    ensures Kept(w, ApplyDrop(w, i), j)
  {
  }

  lemma {:induction false} ReadKept(w: World, reason: ClipboardError, j: nat)
    requires j in w.reqs
    ensures Kept(w, ApplyRead(w, reason), j) && Kept(w, ApplySuspect(w), j) && Kept(w, ApplyNotifyClosed(w), j)
  {
  }

  lemma {:induction false} OpenKept(w: World, i: nat, spawned: bool, j: nat)
    requires i in w.reqs && j in w.reqs && w.pool.count > 0 && w.reqs[i].ticket.worker.Unstarted?
    ensures Kept(w, ApplyStart(w, i, spawned), j)
  {
  }

  lemma {:induction false} PollRetiredKept(w: World, i: nat, j: nat)
    requires i in w.reqs && j in w.reqs
    ensures Kept(w, ApplyPollRetired(w, i), j)
  {
  }

  lemma {:induction false} PollSlotKept(w: World, i: nat, j: nat)
    requires i in w.reqs && j in w.reqs && w.reqs[i].ticket.slot.Some?
    ensures Kept(w, ApplyPollSlot(w, i), j)
  {
    RequestKept(w, w.pool, i, ApplyPollSlot(w, i).reqs[i], j);
  }

  lemma {:induction false} DeliverKept(w: World, i: nat, seen: bool, j: nat)
    requires i in w.reqs && j in w.reqs
    ensures Kept(w, ApplyDeliver(w, i, seen), j)
  {
    RequestKept(w, w.pool, i, Report(w.reqs[i], Held, Delivery(w, i, seen)), j);
  }

  lemma {:induction false} BeginningKept(w: World, s: Step, i: nat)
    requires Enabled(w, s) && i in w.reqs && KindOf(s).Beginning?
    requires s.StartDeadline? ==> w.reqs[s.id].ticket.worker.Unstarted?
    requires forall i :: i in w.reqs ==> i <= w.st.nextId
    ensures Kept(w, Apply(w, s), i)
  {
    match s
    case OfCapture(_) =>
    case Expire(k) => TicketKept(w, w.pool, k, w.reqs[k].ticket.(expired := true), i);
    case Admit(_) =>
    case Claim(t, seen) => ClaimKept(w, t, seen, i);
    case ReserveTimer(k) =>
      if !HasRoom(w.pool) { TicketKept(w, w.pool, k, w.reqs[k].ticket.(phase := Failed, worker := Exited), i); }
    case StartDeadline(k, spawned) => OpenKept(w, k, spawned, i);
    case Submit(k, accepted) => RequestKept(w, w.pool, k, ApplySubmit(w, k, accepted).reqs[k], i);
    case Abort(k) => AbortKept(w, k, i);
    case HandOut(k) => TicketKept(w, w.pool, k, w.reqs[k].ticket.(phase := Held), i);
  }

  lemma {:induction false} WorkingKept(w: World, s: Step, i: nat)
    requires Enabled(w, s) && i in w.reqs && KindOf(s).Working?
    requires s.Callback? && IsActive(w.st, s.id) ==> w.reqs[s.id].completion.NotTaken?
    ensures Kept(w, Apply(w, s), i)
  {
    match s
    case WorkerWake(k) => TicketKept(w, w.pool, k, Wake(w.reqs[k].ticket), i);
    case WorkerTimeout(k) => WorkerTimeoutKept(w, k, i);
    case WorkerExit(k) => TicketKept(w, Release(w.pool, k), k, w.reqs[k].ticket.(worker := Exited), i);
    case BeginWrite(k, seen, late) => BeginWriteKept(w, k, seen, late, i);
    case Callback(k, result, seen) => CallbackKept(w, k, result, seen, i);
    case FinishTimer(k) => RequestKept(w, w.pool, k, ApplyFinishTimer(w, k).reqs[k], i);
    case Reply(k, seen, late) => RequestKept(w, w.pool, k, ApplyReply(w, k, seen, late).reqs[k], i);
    case Complete(k, o) => TicketKept(w, w.pool, k, Settle(w.reqs[k].ticket, o), i);
  }

  lemma {:induction false} CancellingKept(w: World, s: Step, i: nat)
    requires Enabled(w, s) && i in w.reqs && KindOf(s).Cancelling?
    ensures Kept(w, Apply(w, s), i)
  {
    match s
    case Suspect => ReadKept(w, Cancelled, i);
    case CheckSuspect(k, seen) => RequestKept(w, w.pool, k, ApplyCheckSuspect(w, k, seen).reqs[k], i);
    case CancelDoomed(k) => CancelKept(w, k, Released, i);
    case ReadForNavigation => ReadKept(w, Cancelled, i);
    case ReadForToken(t) => ReadKept(w, Released, i);
    case Cancel(k, reason) => CancelKept(w, k, reason, i);
    case CloseSilent => CloseKept(w, i);
    case NotifyClosed => ReadKept(w, Cancelled, i);
  }

  lemma {:induction false} PollingKept(w: World, s: Step, i: nat)
    requires Enabled(w, s) && i in w.reqs && KindOf(s).Polling?
    ensures Kept(w, Apply(w, s), i)
  {
    match s
    case PollRetired(k) => PollRetiredKept(w, k, i);
    case PollTimeout(k) => TimeOutKept(w, k, i);
    case PollSlot(k) => PollSlotKept(w, k, i);
    case Deliver(k, seen) => DeliverKept(w, k, seen, i);
    case Drop(k) => DropKept(w, k, i);
    case FreeSlot(k) => TicketKept(w, w.pool, k, w.reqs[k].ticket.(phase := Gone), i);
  }

  lemma {:induction false} StepKept(w: World, s: Step, i: nat)
    requires Inv(w) && Enabled(w, s) && i in w.reqs
    ensures Kept(w, Apply(w, s), i)
  {
    if s.StartDeadline? || s.Callback? { assert Sound(w, s.id); }
    match KindOf(s)
    case Beginning => BeginningKept(w, s, i);
    case Working => WorkingKept(w, s, i);
    case Cancelling => CancellingKept(w, s, i);
    case Polling => PollingKept(w, s, i);
  }
}
