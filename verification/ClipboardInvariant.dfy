/** Every step of the clipboard protocol keeps its invariant. */
module ClipboardInvariant {
  import opened Common
  import opened Tickets
  import opened Clipboard
  import opened ClipboardProtocol
  import Capture
  import CP = CaptureProtocol
  import CI = CaptureInvariant
  import CG = CaptureGrowth

  // ----- one request at a time -----

  /** From `s` to `s'` request `i` stays where it is, though it may have been marked. */
  ghost predicate Stays(s: State, s': State, i: nat)
  {
    && (IsActive(s', i) <==> IsActive(s, i))
    && (IsActive(s, i) ==>
          && s'.active.value.token == s.active.value.token
          && s'.active.value.writing == s.active.value.writing
          && (Marked(s.active.value, s.closed) ==> Marked(s'.active.value, s'.closed)))
  }

  /** From `s` to `s'` nothing happened to request `i` itself, except that the window may have closed. */
  ghost predicate Undisturbed(s: State, s': State, i: nat)
  {
    && Stays(s, s', i)
    && (IsActive(s, i) ==> s'.active.value.timedOut ==> s.active.value.timedOut)
    && (IsActive(s, i) && !s'.closed ==>
          && (Marked(s'.active.value, false) ==> Marked(s.active.value, false) && !s.closed)
          && (s'.active.value.cancelled ==> s.active.value.cancelled))
  }

  lemma {:induction false} Bystander(s: State, s': State, holders: set<nat>, holders': set<nat>, i: nat, r: Request)
    requires RequestInv(s, holders, i, r)
    requires Undisturbed(s, s', i) && (i in holders <==> i in holders')
    ensures RequestInv(s', holders', i, r)
  {
  }

  lemma {:induction false} AppendFailure(os: seq<Answer>, e: ClipboardError)
    requires AllFailures(os)
    ensures AllFailures(os + [Err(e)])
  {
  }

  /** The active request is told of a failure and carries a mark for it. */
  lemma {:induction false} FailureIssued(s: State, s': State, holders: set<nat>, i: nat, r: Request, t: Ticket<Answer>, e: ClipboardError)
    requires RequestInv(s, holders, i, r)
    requires t == r.ticket || t == Disarm(r.ticket)
    requires IsActive(s, i) && Stays(s, s', i) && Marked(s'.active.value, s'.closed)
    requires s'.active.value.cancelled && !s'.closed ==> t.disarmed
    requires s'.active.value.timedOut ==> r.ticket.expired
    ensures RequestInv(s', holders, i, r.(ticket := Issue(t, Err(e))))
  {
    AppendFailure(r.ticket.issued, e);
    IssueKeepsLedger(t, Err(e));
  }

  lemma {:induction false} SettledRequest(s: State, holders: set<nat>, i: nat, r: Request, o: Answer)
    requires RequestInv(s, holders, i, r) && o in r.ticket.pending
    ensures RequestInv(s, holders, i, r.(ticket := Settle(r.ticket, o)))
  {
    SettleKeepsLedger(r.ticket, o);
  }

  /** The native operation returned: the request leaves the mutex with its marks. */
  lemma {:induction false} TakenRequest(s: State, holders: set<nat>, i: nat, r: Request, result: Answer, seen: bool)
    requires RequestInv(s, holders, i, r) && r.native
    ensures TakeLocked(s, i).1.Some?
    ensures var (s', a) := TakeLocked(s, i);
            RequestInv(s', holders, i, r.(native := false, completion := Taken(a.value, s.closed || !seen, result)))
  {
  }

  lemma {:induction false} DisarmedRequest(s: State, holders: set<nat>, i: nat, r: Request)
    requires RequestInv(s, holders, i, r) && r.completion.Taken?
    ensures var c := r.completion;
            RequestInv(s, holders, i, r.(completion := TimerFinished(c.a, c.sawClosed, c.result), ticket := Disarm(r.ticket)))
  {
  }

  /** The reply: a success only if no failure was ever issued. */
  lemma {:induction false} RepliedRequest(s: State, holders: set<nat>, i: nat, r: Request, late: bool, lease: Result<seq<byte>, Capture.CaptureError>)
    requires RequestInv(s, holders, i, r) && r.completion.TimerFinished?
    ensures var c := r.completion;
            var o := AnswerFor(c.a, c.sawClosed, late, lease, c.result);
            RequestInv(s, holders, i, r.(completion := Answered, ticket := Issue(r.ticket, o)))
  {
    var c := r.completion;
    var o := AnswerFor(c.a, c.sawClosed, late, lease, c.result);
    IssueKeepsLedger(r.ticket, o);
    if o.Err? {
      AppendFailure(r.ticket.issued, o.error);
    } else {
      assert r.ticket.issued == [];
    }
  }

  lemma {:induction false} AbandonedRequest(s: State, holders: set<nat>, i: nat, r: Request)
    requires RequestInv(s, holders, i, r) && r.ticket.phase.Held? && !r.ticket.delivered
    ensures var t := r.ticket.(phase := Dropping, disarmed := r.ticket.disarmed || IsActive(s, i));
            RequestInv(CancelLocked(s, i), holders, i, r.(ticket := t))
  {
  }

  lemma {:induction false} CancelledRequest(s: State, holders: set<nat>, i: nat, r: Request, reason: ClipboardError)
    requires StateInv(s) && RequestInv(s, holders, i, r) && IsActive(s, i)
    ensures StateInv(CancelLocked(s, i))
    ensures RequestInv(CancelLocked(s, i), holders, i, r.(ticket := Issue(Disarm(r.ticket), Err(reason))))
    ensures forall j :: j != i ==> Undisturbed(s, CancelLocked(s, i), j)
  {
    FailureIssued(s, CancelLocked(s, i), holders, i, r, Disarm(r.ticket), reason);
  }

  /** `writing` turns true: the first write of this request. */
  lemma {:induction false} WritingRequest(s: State, cap: Capture.State, generation: nat, holders: set<nat>, i: nat, r: Request, seen: bool, late: bool)
    requires StateInv(s) && RequestInv(s, holders, i, r)
    requires BeginWriteLocked(s, cap, generation, i, seen, late).1.Ok?
    ensures var s' := BeginWriteLocked(s, cap, generation, i, seen, late).0;
            && StateInv(s') && s'.nextId == s.nextId
            && (forall j :: j != i ==> Undisturbed(s, s', j))
            && r.writes == 0
            && RequestInv(s', holders, i, r.(writes := r.writes + 1))
  {
  }

  // ----- whole steps -----

  lemma {:induction false} InitInv(generation: nat)
    ensures Inv(Init(generation))
  {
    CI.InitInv(generation);
  }

  /** A step that rewrites request `i` (or none, if `r` is what was there) and disturbs no other. */
  lemma {:induction false} FocusedStep(w: World, v: World, i: nat, r: Request)
    requires Inv(w) && v.cap == w.cap && v.admitted == w.admitted && v.reqs == w.reqs[i := r]
    requires StateInv(v.st) && PoolInv(v.pool) && v.pool.loose == 0
    requires forall j :: j in v.reqs <==> 1 <= j <= v.st.nextId
    requires forall j :: j in v.pool.holders ==> j in v.reqs
    requires forall j :: j in w.reqs && j != i ==>
               Undisturbed(w.st, v.st, j) && (j in w.pool.holders <==> j in v.pool.holders)
    requires RequestInv(v.st, v.pool.holders, i, r) && TokenInv(v.cap, r)
    ensures Inv(v)
  {
    forall j | j in v.reqs ensures Sound(v, j) {
      if j != i {
        assert Sound(w, j);
        Bystander(w.st, v.st, w.pool.holders, v.pool.holders, j, w.reqs[j]);
      }
    }
  }

  lemma {:induction false} RequestStep(w: World, i: nat, r: Request)
    requires Inv(w) && i in w.reqs
    requires RequestInv(w.st, w.pool.holders, i, r) && TokenInv(w.cap, r)
    ensures Inv(w.(reqs := w.reqs[i := r]))
  {
    FocusedStep(w, w.(reqs := w.reqs[i := r]), i, r);
  }

  lemma {:induction false} SectionStep(w: World, st: State, i: nat, r: Request)
    requires Inv(w) && i in w.reqs && StateInv(st) && st.nextId == w.st.nextId
    requires forall j :: j in w.reqs && j != i ==> Undisturbed(w.st, st, j)
    requires RequestInv(st, w.pool.holders, i, r) && TokenInv(w.cap, r)
    ensures Inv(w.(st := st, reqs := w.reqs[i := r]))
  {
    FocusedStep(w, w.(st := st, reqs := w.reqs[i := r]), i, r);
  }

  /** No capture step can mint the same id again or back a dead token. */
  lemma {:induction false} CaptureStepKeepsTokens(cap: CP.World, s: CP.Step, t: Token)
    requires CP.Inv(cap) && CP.Enabled(cap, s) && CP.Minted(cap, t)
    ensures CP.Minted(CP.Apply(cap, s), t)
    ensures CP.Apply(cap, s).hostActive ==> cap.hostActive
    ensures CP.Backed(CP.Apply(cap, s), t) ==> CP.Backed(cap, t)
  {
    CI.StepKeepsInv(cap, s);
    CG.StepGrows(cap, s);
    var v := CP.Apply(cap, s);
    if t.generation == cap.generation {
      assert CG.Kept(cap, v, t.id);
    }
  }

  lemma {:induction false} CaptureStepKeepsInv(w: World, s: CP.Step)
    requires Inv(w) && CP.Enabled(w.cap, s)
    ensures Inv(w.(cap := CP.Apply(w.cap, s)))
  {
    CI.StepKeepsInv(w.cap, s);
    CG.StepGrows(w.cap, s);
    var v := w.(cap := CP.Apply(w.cap, s));
    forall i | i in v.reqs ensures Sound(v, i) {
      assert Sound(w, i);
      CaptureStepKeepsTokens(w.cap, s, w.reqs[i].token);
    }
    forall t | t in v.admitted ensures CP.Minted(v.cap, t) {
      CaptureStepKeepsTokens(w.cap, s, t);
    }
  }

  lemma {:induction false} BackedIsMinted(cap: CP.World, t: Token)
    requires CP.GlobalInv(cap) && CP.Backed(cap, t)
    ensures CP.Minted(cap, t)
  {
  }

  lemma {:induction false} AdmitKeepsInv(w: World, t: Token)
    requires Inv(w) && CP.Backed(w.cap, t)
    ensures Inv(w.(admitted := w.admitted + {t}))
  {
    BackedIsMinted(w.cap, t);
    var v := w.(admitted := w.admitted + {t});
    forall i | i in v.reqs ensures Sound(v, i) { assert Sound(w, i); }
  }

  lemma {:induction false} ClaimKeepsInv(w: World, t: Token, seen: bool)
    requires Inv(w) && t in w.admitted
    ensures Inv(ApplyClaim(w, t, seen))
  {
    var c := ClaimLocked(w.st, t, seen);
    if c.Ok? {
      var i := c.value.1;
      assert i !in w.reqs;
      var r := Request(t, false, Opened(), NotTaken, false, false, {}, 0, []);
      FocusedStep(w, ApplyClaim(w, t, seen), i, r);
    }
  }

  lemma {:induction false} ReservedKeepsInv(w: World, i: nat)
    requires Inv(w) && i in w.reqs && w.reqs[i].ticket.phase.Claimed? && i !in w.pool.holders && HasRoom(w.pool)
    ensures Inv(w.(pool := Attach(Reserve(w.pool), i)))
  {
    assert Sound(w, i);
    PoolSteps(w.pool, i);
    PoolSteps(Reserve(w.pool), i);
    FocusedStep(w, w.(pool := Attach(Reserve(w.pool), i)), i, w.reqs[i]);
  }

  lemma {:induction false} UnreservedKeepsInv(w: World, i: nat, t: Ticket<Answer>)
    requires Inv(w) && i in w.reqs && i in w.pool.holders
    requires RequestInv(w.st, w.pool.holders - {i}, i, w.reqs[i].(ticket := t))
    ensures w.pool.count > 0 && Inv(SetTicket(w, i, t).(pool := Release(w.pool, i)))
  {
    assert Sound(w, i);
    PoolSteps(w.pool, i);
    FocusedStep(w, SetTicket(w, i, t).(pool := Release(w.pool, i)), i, w.reqs[i].(ticket := t));
  }

  lemma {:induction false} ExpireKeepsInv(w: World, i: nat)
    requires Inv(w) && i in w.reqs
    ensures Inv(SetTicket(w, i, w.reqs[i].ticket.(expired := true)))
  {
    assert Sound(w, i);
    RequestStep(w, i, w.reqs[i].(ticket := w.reqs[i].ticket.(expired := true)));
  }

  lemma {:induction false} OverloadedKeepsInv(w: World, i: nat)
    requires Inv(w) && i in w.reqs && w.reqs[i].ticket.phase.Claimed? && i !in w.pool.holders
    ensures Inv(SetTicket(w, i, w.reqs[i].ticket.(phase := Failed, worker := Exited)))
  {
    assert Sound(w, i);
    RequestStep(w, i, w.reqs[i].(ticket := w.reqs[i].ticket.(phase := Failed, worker := Exited)));
  }

  lemma {:induction false} StartKeepsInv(w: World, i: nat, spawned: bool)
    requires Inv(w) && i in w.reqs && w.reqs[i].ticket.phase.Claimed? && i in w.pool.holders && w.pool.count > 0
    ensures Inv(ApplyStart(w, i, spawned))
  {
    assert Sound(w, i);
    if spawned {
      RequestStep(w, i, w.reqs[i].(ticket := w.reqs[i].ticket.(phase := Timed, worker := Waiting)));
    } else {
      UnreservedKeepsInv(w, i, w.reqs[i].ticket.(phase := Failed, worker := Exited));
    }
  }

  lemma {:induction false} ExitKeepsInv(w: World, i: nat)
    requires Inv(w) && i in w.reqs && w.reqs[i].ticket.worker.Done? && w.pool.count > 0
    ensures Inv(ApplyExit(w, i))
  {
    assert Sound(w, i);
    UnreservedKeepsInv(w, i, w.reqs[i].ticket.(worker := Exited));
  }

  lemma {:induction false} SubmitKeepsInv(w: World, i: nat, accepted: bool)
    requires Inv(w) && i in w.reqs && w.reqs[i].ticket.phase.Timed?
    ensures Inv(ApplySubmit(w, i, accepted))
  {
    assert Sound(w, i);
    RequestStep(w, i, ApplySubmit(w, i, accepted).reqs[i]);
  }

  lemma {:induction false} AbortKeepsInv(w: World, i: nat)
    requires Inv(w) && i in w.reqs && w.reqs[i].ticket.phase.Failed?
    ensures Inv(ApplyAbort(w, i))
  {
    assert Sound(w, i);
    SectionStep(w, AbortLocked(w.st, i), i, ApplyAbort(w, i).reqs[i]);
  }

  lemma {:induction false} HandOutKeepsInv(w: World, i: nat)
    requires Inv(w) && i in w.reqs && w.reqs[i].ticket.phase.Submitted?
    ensures Inv(SetTicket(w, i, w.reqs[i].ticket.(phase := Held)))
  {
    assert Sound(w, i);
    RequestStep(w, i, w.reqs[i].(ticket := w.reqs[i].ticket.(phase := Held)));
  }

  lemma {:induction false} WakeKeepsInv(w: World, i: nat)
    requires Inv(w) && i in w.reqs && CanWake(w.reqs[i].ticket)
    ensures Inv(SetTicket(w, i, Wake(w.reqs[i].ticket)))
  {
    assert Sound(w, i);
    RequestStep(w, i, w.reqs[i].(ticket := Wake(w.reqs[i].ticket)));
  }

  lemma {:induction false} TimeOutKeepsInv(w: World, i: nat)
    requires Inv(w) && i in w.reqs && w.reqs[i].ticket.expired
    ensures Inv(TimeOut(w, i))
  {
    assert Sound(w, i);
    var r := w.reqs[i];
    if IsActive(w.st, i) {
      var st := TimeoutLocked(w.st, i);
      FailureIssued(w.st, st, w.pool.holders, i, r, r.ticket, Timeout);
      SectionStep(w, st, i, r.(ticket := Issue(r.ticket, Err(Timeout))));
    }
  }

  lemma {:induction false} FiredKeepsInv(w: World, i: nat)
    requires Inv(w) && i in w.reqs && w.reqs[i].ticket.worker.Firing?
    requires IsActive(w.st, i) ==> w.reqs[i].ticket.issued != [] || w.reqs[i].ticket.phase.Gone?
    ensures Inv(SetTicket(w, i, w.reqs[i].ticket.(worker := Done)))
  {
    assert Sound(w, i);
    RequestStep(w, i, w.reqs[i].(ticket := w.reqs[i].ticket.(worker := Done)));
  }

  lemma {:induction false} TimeOutIssues(w: World, i: nat)
    requires i in w.reqs
    ensures i in TimeOut(w, i).reqs
    ensures TimeOut(w, i).reqs[i].ticket.worker == w.reqs[i].ticket.worker
    ensures IsActive(TimeOut(w, i).st, i) ==>
              TimeOut(w, i).reqs[i].ticket.issued != [] || TimeOut(w, i).reqs[i].ticket.phase.Gone?
  {
  }

  lemma {:induction false} WorkerTimeoutKeepsInv(w: World, i: nat)
    requires Inv(w) && i in w.reqs && w.reqs[i].ticket.worker.Firing?
    ensures Inv(ApplyWorkerTimeout(w, i))
  {
    assert Sound(w, i);
    TimeOutKeepsInv(w, i);
    TimeOutIssues(w, i);
    FiredKeepsInv(TimeOut(w, i), i);
  }

  lemma {:induction false} CancelKeepsInv(w: World, i: nat, reason: ClipboardError)
    requires Inv(w) && i in w.reqs
    ensures Inv(CancelRequest(w, i, reason))
  {
    assert Sound(w, i);
    var r := w.reqs[i];
    if IsActive(w.st, i) {
      CancelledRequest(w.st, w.pool.holders, i, r, reason);
      SectionStep(w, CancelLocked(w.st, i), i, r.(ticket := Issue(Disarm(r.ticket), Err(reason))));
    }
  }

  lemma {:induction false} NotifyClosedKeepsInv(w: World)
    requires Inv(w) && w.st.closed
    ensures Inv(ApplyNotifyClosed(w))
  {
    if w.st.active.Some? {
      var i := w.st.active.value.id;
      assert Sound(w, i);
      FailureIssued(w.st, w.st, w.pool.holders, i, w.reqs[i], Disarm(w.reqs[i].ticket), Closed);
      RequestStep(w, i, w.reqs[i].(ticket := Issue(Disarm(w.reqs[i].ticket), Err(Closed))));
    }
  }

  lemma {:induction false} CloseSilentKeepsInv(w: World)
    requires Inv(w)
    ensures Inv(w.(st := CloseSilentLocked(w.st)))
  {
    var v := w.(st := CloseSilentLocked(w.st));
    forall i | i in v.reqs ensures Sound(v, i) {
      assert Sound(w, i);
      Bystander(w.st, v.st, w.pool.holders, w.pool.holders, i, w.reqs[i]);
    }
  }

  lemma {:induction false} BeginWriteKeepsInv(w: World, i: nat, seen: bool, late: bool)
    requires Inv(w) && i in w.reqs
    ensures Inv(ApplyBeginWrite(w, i, seen, late))
  {
    assert Sound(w, i);
    if BeginWriteLocked(w.st, w.cap.st, w.cap.generation, i, seen, late).1.Ok? {
      WritingRequest(w.st, w.cap.st, w.cap.generation, w.pool.holders, i, w.reqs[i], seen, late);
      WrittenKeepsInv(w, BeginWriteLocked(w.st, w.cap.st, w.cap.generation, i, seen, late).0, i);
    }
  }

  lemma {:induction false} WrittenKeepsInv(w: World, st: State, i: nat)
    requires Inv(w) && i in w.reqs && StateInv(st) && st.nextId == w.st.nextId
    requires forall j :: j != i ==> Undisturbed(w.st, st, j)
    requires RequestInv(st, w.pool.holders, i, w.reqs[i].(writes := w.reqs[i].writes + 1))
    ensures Inv(w.(st := st, reqs := w.reqs[i := w.reqs[i].(writes := w.reqs[i].writes + 1)]))
  {
    assert Sound(w, i);
    SectionStep(w, st, i, w.reqs[i].(writes := w.reqs[i].writes + 1));
  }

  lemma {:induction false} CallbackKeepsInv(w: World, i: nat, result: Answer, seen: bool)
    requires Inv(w) && i in w.reqs && w.reqs[i].native
    ensures Inv(ApplyCallback(w, i, result, seen))
  {
    assert Sound(w, i);
    TakenRequest(w.st, w.pool.holders, i, w.reqs[i], result, seen);
    SectionStep(w, TakeLocked(w.st, i).0, i, ApplyCallback(w, i, result, seen).reqs[i]);
  }

  lemma {:induction false} FinishTimerKeepsInv(w: World, i: nat)
    requires Inv(w) && i in w.reqs && w.reqs[i].completion.Taken?
    ensures Inv(ApplyFinishTimer(w, i))
  {
    assert Sound(w, i);
    DisarmedRequest(w.st, w.pool.holders, i, w.reqs[i]);
    RequestStep(w, i, ApplyFinishTimer(w, i).reqs[i]);
  }

  lemma {:induction false} ReplyKeepsInv(w: World, i: nat, seen: bool, late: bool)
    requires Inv(w) && i in w.reqs && w.reqs[i].completion.TimerFinished?
    ensures Inv(ApplyReply(w, i, seen, late))
  {
    assert Sound(w, i);
    RepliedRequest(w.st, w.pool.holders, i, w.reqs[i], late, Capture.LeaseLocked(w.cap.st, w.cap.generation, w.reqs[i].completion.a.token, seen));
    RequestStep(w, i, ApplyReply(w, i, seen, late).reqs[i]);
  }

  lemma {:induction false} CompleteKeepsInv(w: World, i: nat, o: Answer)
    requires Inv(w) && i in w.reqs && o in w.reqs[i].ticket.pending
    ensures Inv(SetTicket(w, i, Settle(w.reqs[i].ticket, o)))
  {
    assert Sound(w, i);
    SettledRequest(w.st, w.pool.holders, i, w.reqs[i], o);
    RequestStep(w, i, w.reqs[i].(ticket := Settle(w.reqs[i].ticket, o)));
  }

  lemma {:induction false} SuspectKeepsInv(w: World)
    requires Inv(w)
    ensures Inv(ApplySuspect(w))
  {
    if w.st.active.Some? {
      var i := w.st.active.value.id;
      assert Sound(w, i);
      RequestStep(w, i, w.reqs[i].(suspected := true));
    }
  }

  lemma {:induction false} ReadKeepsInv(w: World, reason: ClipboardError)
    requires Inv(w)
    ensures Inv(ApplyRead(w, reason))
  {
    if w.st.active.Some? {
      var i := w.st.active.value.id;
      assert Sound(w, i);
      RequestStep(w, i, w.reqs[i].(cancels := w.reqs[i].cancels + {reason}));
    }
  }

  lemma {:induction false} CheckSuspectKeepsInv(w: World, i: nat, seen: bool)
    requires Inv(w) && i in w.reqs && (w.cap.hostActive ==> seen)
    ensures Inv(ApplyCheckSuspect(w, i, seen))
  {
    assert Sound(w, i);
    if Capture.LeaseLocked(w.cap.st, w.cap.generation, w.reqs[i].token, seen).Err? {
      RequestStep(w, i, w.reqs[i].(doomed := true));
    }
  }

  /** What a poll that finds an outcome leaves of the request. */
  lemma {:induction false} PolledRequest(s: State, holders: set<nat>, i: nat, r: Request)
    requires RequestInv(s, holders, i, r) && r.ticket.phase.Held? && r.ticket.slot.Some?
    ensures var a := r.ticket.slot.value;
            var taken := r.(ticket := r.ticket.(slot := None, delivered := true));
            && (a.Err? ==> RequestInv(s, holders, i, Report(taken, Held, a)))
            && (a.Ok? ==> RequestInv(s, holders, i, taken.(ticket := taken.ticket.(phase := Validating(a)))))
  {
  }

  lemma {:induction false} PollSlotKeepsInv(w: World, i: nat)
    requires Inv(w) && i in w.reqs && w.reqs[i].ticket.phase.Held? && w.reqs[i].ticket.slot.Some?
    ensures Inv(ApplyPollSlot(w, i))
  {
    assert Sound(w, i);
    PolledRequest(w.st, w.pool.holders, i, w.reqs[i]);
    RequestStep(w, i, ApplyPollSlot(w, i).reqs[i]);
  }

  lemma {:induction false} ReportedRequest(s: State, holders: set<nat>, i: nat, r: Request, a: Answer)
    requires RequestInv(s, holders, i, r) && (r.ticket.phase.Validating? || (r.ticket.phase.Held? && a.Err?))
    ensures RequestInv(s, holders, i, Report(r, Held, a))
  {
    if r.ticket.phase.Validating? {
      assert r.ticket.phase.answer in r.ticket.issued;
    }
  }

  lemma {:induction false} DeliverKeepsInv(w: World, i: nat, seen: bool)
    requires Inv(w) && i in w.reqs && w.reqs[i].ticket.phase.Validating?
    ensures Inv(ApplyDeliver(w, i, seen))
  {
    assert Sound(w, i);
    ReportedRequest(w.st, w.pool.holders, i, w.reqs[i], Delivery(w, i, seen));
    RequestStep(w, i, Report(w.reqs[i], Held, Delivery(w, i, seen)));
  }

  lemma {:induction false} PollRetiredKeepsInv(w: World, i: nat)
    requires Inv(w) && i in w.reqs && w.reqs[i].ticket.phase.Held?
    ensures Inv(ApplyPollRetired(w, i))
  {
    var v := w.(st := CloseSilentLocked(w.st));
    CloseSilentKeepsInv(w);
    assert Sound(v, i);
    ReportedRequest(v.st, v.pool.holders, i, v.reqs[i], Err(Closed));
    RequestStep(v, i, Report(v.reqs[i], Held, Err(Closed)));
  }

  lemma {:induction false} DropKeepsInv(w: World, i: nat)
    requires Inv(w) && i in w.reqs && w.reqs[i].ticket.phase.Held?
    ensures Inv(ApplyDrop(w, i))
  {
    assert Sound(w, i);
    if w.reqs[i].ticket.delivered {
      RequestStep(w, i, ApplyDrop(w, i).reqs[i]);
    } else {
      AbandonedRequest(w.st, w.pool.holders, i, w.reqs[i]);
      SectionStep(w, CancelLocked(w.st, i), i, ApplyDrop(w, i).reqs[i]);
    }
  }

  lemma {:induction false} FreeSlotKeepsInv(w: World, i: nat)
    requires Inv(w) && i in w.reqs && w.reqs[i].ticket.phase.Dropping?
    ensures Inv(SetTicket(w, i, w.reqs[i].ticket.(phase := Gone)))
  {
    assert Sound(w, i);
    RequestStep(w, i, w.reqs[i].(ticket := w.reqs[i].ticket.(phase := Gone)));
  }

  // ----- every step -----

  lemma {:induction false} BeginningKeepsInv(w: World, s: Step)
    requires Inv(w) && Enabled(w, s) && KindOf(s).Beginning?
    ensures Inv(Apply(w, s))
  {
    match s
    case OfCapture(c) => CaptureStepKeepsInv(w, c);
    case Expire(i) => ExpireKeepsInv(w, i);
    case Admit(t) => AdmitKeepsInv(w, t);
    case Claim(t, seen) => ClaimKeepsInv(w, t, seen);
    case ReserveTimer(i) => if HasRoom(w.pool) { ReservedKeepsInv(w, i); } else { OverloadedKeepsInv(w, i); }
    case StartDeadline(i, spawned) => StartKeepsInv(w, i, spawned);
    case Submit(i, accepted) => SubmitKeepsInv(w, i, accepted);
    case Abort(i) => AbortKeepsInv(w, i);
    case HandOut(i) => HandOutKeepsInv(w, i);
  }

  lemma {:induction false} WorkingKeepsInv(w: World, s: Step)
    requires Inv(w) && Enabled(w, s) && KindOf(s).Working?
    ensures Inv(Apply(w, s))
  {
    match s
    case WorkerWake(i) => WakeKeepsInv(w, i);
    case WorkerTimeout(i) => WorkerTimeoutKeepsInv(w, i);
    case WorkerExit(i) => ExitKeepsInv(w, i);
    case BeginWrite(i, seen, late) => BeginWriteKeepsInv(w, i, seen, late);
    case Callback(i, result, seen) => CallbackKeepsInv(w, i, result, seen);
    case FinishTimer(i) => FinishTimerKeepsInv(w, i);
    case Reply(i, seen, late) => ReplyKeepsInv(w, i, seen, late);
    case Complete(i, o) => CompleteKeepsInv(w, i, o);
  }

  lemma {:induction false} CancellingKeepsInv(w: World, s: Step)
    requires Inv(w) && Enabled(w, s) && KindOf(s).Cancelling?
    ensures Inv(Apply(w, s))
  {
    match s
    case Suspect => SuspectKeepsInv(w);
    case CheckSuspect(i, seen) => CheckSuspectKeepsInv(w, i, seen);
    case CancelDoomed(i) => CancelKeepsInv(w, i, Released);
    case ReadForNavigation => ReadKeepsInv(w, Cancelled);
    case ReadForToken(t) => ReadKeepsInv(w, Released);
    case Cancel(i, reason) => CancelKeepsInv(w, i, reason);
    case CloseSilent => CloseSilentKeepsInv(w);
    case NotifyClosed => NotifyClosedKeepsInv(w);
  }

  lemma {:induction false} PollingKeepsInv(w: World, s: Step)
    requires Inv(w) && Enabled(w, s) && KindOf(s).Polling?
    ensures Inv(Apply(w, s))
  {
    match s
    case PollRetired(i) => PollRetiredKeepsInv(w, i);
    case PollTimeout(i) => TimeOutKeepsInv(w, i);
    case PollSlot(i) => PollSlotKeepsInv(w, i);
    case Deliver(i, seen) => DeliverKeepsInv(w, i, seen);
    case Drop(i) => DropKeepsInv(w, i);
    case FreeSlot(i) => FreeSlotKeepsInv(w, i);
  }

  /** Every step keeps the invariant. */
  lemma {:induction false} StepKeepsInv(w: World, s: Step)
    requires Inv(w) && Enabled(w, s)
    ensures Inv(Apply(w, s))
  {
    match KindOf(s)
    case Beginning => BeginningKeepsInv(w, s);
    case Working => WorkingKeepsInv(w, s);
    case Cancelling => CancellingKeepsInv(w, s);
    case Polling => PollingKeepsInv(w, s);
  }
}
