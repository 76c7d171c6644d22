/**
 What the clipboard protocol does for its callers: beginning, cancelling, delivering and
 dropping a request bring about exactly what they are for, from any state they meet.
 */
module ClipboardService {
  import opened Common
  import opened Tickets
  import opened Clipboard
  import opened ClipboardProtocol
  import opened ClipboardInvariant
  import Capture
  import CP = CaptureProtocol

  lemma {:induction false} Prepend(w: World, a: Step, run: seq<Step>)
    requires Enabled(w, a) && Valid(Apply(w, a), run)
    ensures Valid(w, [a] + run) && Exec(w, [a] + run) == Exec(Apply(w, a), run)
  {
    assert ([a] + run)[1..] == run;
  }

  // ----- begin -----

  /** A request that `begin` has handed out and nobody has touched since. */
  predicate Fresh(w: World, i: nat, t: Token)
  {
    && i in w.reqs && IsActive(w.st, i) && w.st.active.value.token == t && i in w.pool.holders
    && w.reqs[i] == Request(t, true, Opened().(phase := Held, worker := Waiting), NotTaken, false, false, {}, 0, [])
  }

  lemma {:induction false} ClaimedRequest(w: World, t: Token)
    requires Inv(w) && HasRoom(w.pool) && CP.Backed(w.cap, t) && ClaimLocked(w.st, t, true).Ok?
    ensures Enabled(w, Admit(t)) && Enabled(Apply(w, Admit(t)), Claim(t, true))
    ensures var v := Apply(Apply(w, Admit(t)), Claim(t, true));
            var i := w.st.nextId + 1;
            && i in v.reqs && v.reqs[i] == Request(t, false, Opened(), NotTaken, false, false, {}, 0, [])
            && IsActive(v.st, i) && v.st.active.value.token == t && i !in v.pool.holders && HasRoom(v.pool)
  {
  }

  lemma {:induction false} ReservedRequest(w: World, i: nat)
    requires i in w.reqs && w.reqs[i].ticket.phase.Claimed? && i !in w.pool.holders && HasRoom(w.pool)
    ensures Enabled(w, ReserveTimer(i))
    ensures var v := Apply(w, ReserveTimer(i));
            && v.reqs == w.reqs && v.st == w.st && i in v.pool.holders && v.pool.count == w.pool.count + 1
  {
  }

  lemma {:induction false} OpenedRequest(w: World, i: nat)
    requires i in w.reqs && w.reqs[i].ticket.phase.Claimed? && i in w.pool.holders && w.pool.count > 0
    ensures Enabled(w, StartDeadline(i, true))
    ensures var u := Apply(w, StartDeadline(i, true));
            Enabled(u, Submit(i, true)) && Enabled(Apply(u, Submit(i, true)), HandOut(i))
    ensures var v := Apply(Apply(Apply(w, StartDeadline(i, true)), Submit(i, true)), HandOut(i));
            && v.st == w.st && v.pool == w.pool && i in v.reqs
            && v.reqs[i] == w.reqs[i].(native := true, ticket := w.reqs[i].ticket.(phase := Held, worker := Waiting))
  {
  }

  /** `begin` succeeds whenever the token is leasable, the window idle and open, and a deadline thread free. */
  lemma {:induction false} BeginSucceeds(w: World, t: Token) returns (run: seq<Step>)
    requires Inv(w) && HasRoom(w.pool) && CP.Backed(w.cap, t) && ClaimLocked(w.st, t, true).Ok?
    ensures Valid(w, run) && Fresh(Exec(w, run), w.st.nextId + 1, t)
  {
    var i := w.st.nextId + 1;
    ClaimedRequest(w, t);
    var u := Apply(Apply(w, Admit(t)), Claim(t, true));
    ReservedRequest(u, i);
    var v := Apply(u, ReserveTimer(i));
    OpenedRequest(v, i);
    var a, b, c := StartDeadline(i, true), Submit(i, true), HandOut(i);
    run := [];
    Prepend(Apply(Apply(v, a), b), c, run);
    run := [c] + run;
    Prepend(Apply(v, a), b, run);
    run := [b] + run;
    Prepend(v, a, run);
    run := [a] + run;
    Prepend(u, ReserveTimer(i), run);
    run := [ReserveTimer(i)] + run;
    Prepend(Apply(w, Admit(t)), Claim(t, true), run);
    run := [Claim(t, true)] + run;
    Prepend(w, Admit(t), run);
    run := [Admit(t)] + run;
  }

  /** A `begin` that fails after its claim leaves nothing behind. */
  lemma {:induction false} FailedBeginCleansUp(w: World, i: nat)
    requires Inv(w) && i in w.reqs && w.reqs[i].ticket.phase.Failed?
    ensures var v := ApplyAbort(w, i);
            v.st.active.None? && i in v.reqs && v.reqs[i].ticket.phase.Gone? && v.reqs[i].ticket.disarmed
  {
    assert Sound(w, i);
  }

  /** The ways `begin` can fail after its claim, each with its reservation given back or kept for the thread. */
  lemma {:induction false} BeginFails(w: World, i: nat)
    requires i in w.reqs
    ensures w.reqs[i].ticket.phase.Claimed? && !HasRoom(w.pool) ==>
              i in ApplyReserve(w, i).reqs && ApplyReserve(w, i).reqs[i].ticket.phase.Failed?
    ensures w.pool.count > 0 ==>
              && i in ApplyStart(w, i, false).reqs && ApplyStart(w, i, false).reqs[i].ticket.phase.Failed?
              && ApplyStart(w, i, false).pool.count == w.pool.count - 1 && i !in ApplyStart(w, i, false).pool.holders
    ensures i in ApplySubmit(w, i, false).reqs && ApplySubmit(w, i, false).reqs[i].ticket.phase.Failed?
    ensures ApplySubmit(w, i, false).reqs[i].native == w.reqs[i].native
  {
  }

  // ----- cancellation -----

  /** Request `i` is marked cancelled, its timer finished, and the reason on its way to it. */
  predicate CancelledWith(w: World, v: World, i: nat, reason: ClipboardError)
  {
    && i in w.reqs && i in v.reqs && IsActive(v.st, i) && v.st.active.value.cancelled && v.reqs[i].ticket.disarmed
    && (SlotAlive(w.reqs[i].ticket) ==>
          && v.reqs[i].ticket.issued == w.reqs[i].ticket.issued + [Err(reason)]
          && Err(reason) in v.reqs[i].ticket.pending)
  }

  lemma {:induction false} IssueHolds(t: Ticket<Answer>, e: ClipboardError)
    ensures SlotAlive(t) ==> Issue(t, Err(e)).issued == t.issued + [Err(e)] && Err(e) in Issue(t, Err(e)).pending
  {
    var o: Answer := Err(e);
    assert o in multiset{o};
  }

  lemma {:induction false} CancelTells(w: World, i: nat, reason: ClipboardError)
    requires i in w.reqs && IsActive(w.st, i)
    ensures CancelledWith(w, CancelRequest(w, i, reason), i, reason)
  {
    IssueHolds(Disarm(w.reqs[i].ticket), reason);
  }

  /** `cancel_invalidated` cancels the active request exactly if its token is no longer leasable. */
  lemma {:induction false} InvalidatedIsCancelled(w: World, i: nat, seen: bool)
    requires i in w.reqs && IsActive(w.st, i) && !w.reqs[i].doomed
    ensures var u := ApplySuspect(w);
            && i in u.reqs && u.st == w.st && u.cap == w.cap && u.reqs[i] == w.reqs[i].(suspected := true)
            && (seen && CP.Backed(w.cap, w.reqs[i].token) ==> ApplyCheckSuspect(u, i, seen) == u)
            && (!(seen && CP.Backed(w.cap, w.reqs[i].token)) ==>
                  var d := ApplyCheckSuspect(u, i, seen);
                  i in d.reqs && d.reqs[i].doomed && CancelledWith(d, CancelRequest(d, i, Released), i, Released))
  {
    var d := ApplyCheckSuspect(ApplySuspect(w), i, seen);
    CancelTells(d, i, Released);
  }

  /** A navigation cancels the active request, whichever it is. */
  lemma {:induction false} NavigationCancels(w: World, i: nat)
    requires i in w.reqs && IsActive(w.st, i)
    ensures Enabled(w, ReadForNavigation)
    ensures var u := ApplyRead(w, Cancelled);
            i in u.reqs && Cancelled in u.reqs[i].cancels && CancelledWith(u, CancelRequest(u, i, Cancelled), i, Cancelled)
  {
    CancelTells(ApplyRead(w, Cancelled), i, Cancelled);
  }

  /** A release cancels the active request exactly if that is the request of the released token. */
  lemma {:induction false} ReleaseCancels(w: World, t: Token)
    requires w.st.active.Some? ==> w.st.active.value.id in w.reqs
    ensures !(w.st.active.Some? && w.st.active.value.token == t) ==> ApplyReadForToken(w, t) == w
    ensures w.st.active.Some? && w.st.active.value.token == t ==>
              var i, u := w.st.active.value.id, ApplyReadForToken(w, t);
              i in u.reqs && Released in u.reqs[i].cancels && CancelledWith(u, CancelRequest(u, i, Released), i, Released)
  {
    if w.st.active.Some? && w.st.active.value.token == t {
      CancelTells(ApplyReadForToken(w, t), w.st.active.value.id, Released);
    }
  }

  /** Close marks the active request at once; its notification tells it and finishes its timer. */
  lemma {:induction false} CloseTells(w: World, i: nat)
    requires i in w.reqs && IsActive(w.st, i)
    ensures var u := w.(st := CloseSilentLocked(w.st));
            && u.st.closed && IsActive(u.st, i) && u.st.active.value.cancelled
            && CancelledWith(u, ApplyNotifyClosed(u), i, Closed)
  {
    IssueHolds(Disarm(w.reqs[i].ticket), Closed);
  }

  /** Nobody is timed out early: a mark, and a thread about to set one, mean the deadline has passed. */
  lemma {:induction false} NeverEarly(w: World, i: nat)
    requires Inv(w) && i in w.reqs
    ensures w.reqs[i].ticket.worker.Firing? || (IsActive(w.st, i) && w.st.active.value.timedOut) ==> w.reqs[i].ticket.expired
  {
    assert Sound(w, i);
  }

  /** A deadline that passes marks the active request and tells it. */
  lemma {:induction false} TimeoutTells(w: World, i: nat)
    requires i in w.reqs && IsActive(w.st, i)
    ensures var v := TimeOut(w, i);
            && IsActive(v.st, i) && v.st.active.value.timedOut && i in v.reqs
            && (SlotAlive(w.reqs[i].ticket) ==>
                  v.reqs[i].ticket.issued == w.reqs[i].ticket.issued + [Err(Timeout)] && Err(Timeout) in v.reqs[i].ticket.pending)
  {
    IssueHolds(w.reqs[i].ticket, Timeout);
  }

  // ----- the native side and the future -----

  /** The native reply is taken with the marks of that moment, and whether the window was closed. */
  lemma {:induction false} CallbackTakes(w: World, i: nat, result: Answer, seen: bool)
    requires Inv(w) && i in w.reqs && w.reqs[i].native && IsActive(w.st, i)
    ensures var v := ApplyCallback(w, i, result, seen);
            && i in v.reqs && v.st.active.None? && !v.reqs[i].native
            && v.reqs[i].completion == Taken(w.st.active.value, w.st.closed || !seen, result)
            && ApplyFinishTimer(v, i).reqs[i].ticket.disarmed
            && ApplyFinishTimer(v, i).reqs[i].completion == TimerFinished(w.st.active.value, w.st.closed || !seen, result)
  {
    assert Sound(w, i);
  }

  /** A completion that finds the slot empty puts its answer there; one that comes later changes nothing. */
  lemma {:induction false} CompletionFillsSlot(w: World, i: nat, a: Answer)
    requires Enabled(w, Complete(i, a))
    ensures var v := Apply(w, Complete(i, a));
            && i in v.reqs && v.reqs[i].ticket.pending == w.reqs[i].ticket.pending - multiset{a}
            && v.reqs[i].ticket.slot == if w.reqs[i].ticket.slot.Some? then w.reqs[i].ticket.slot else Some(a)
  {
  }

  /** What is in the slot is taken out once; a failure is reported as it is, a success goes to its last check. */
  lemma {:induction false} PollTakes(w: World, i: nat)
    requires i in w.reqs && w.reqs[i].ticket.phase.Held? && w.reqs[i].ticket.slot.Some?
    ensures var r, a := w.reqs[i], w.reqs[i].ticket.slot.value;
            var u := ApplyPollSlot(w, i);
            && i in u.reqs && u.cap == w.cap && u.reqs[i].token == r.token
            && u.reqs[i].ticket.delivered && u.reqs[i].ticket.slot.None?
            && (a.Err? ==> u.reqs[i].ticket.phase.Held? && u.reqs[i].reported == r.reported + [a])
            && (a.Ok? ==> u.reqs[i].ticket.phase.Validating? && u.reqs[i].reported == r.reported)
  {
  }

  /** The last check reports its verdict and gives the request back to the host. */
  lemma {:induction false} DeliverReports(w: World, i: nat, seen: bool)
    requires i in w.reqs && w.reqs[i].ticket.phase.Validating? && (w.cap.hostActive ==> seen)
    ensures Enabled(w, Deliver(i, seen))
    ensures var v := ApplyDeliver(w, i, seen);
            i in v.reqs && v.reqs[i].ticket.phase.Held? && v.reqs[i].reported == w.reqs[i].reported + [Delivery(w, i, seen)]
  {
  }

  /** A poll that finds the host retired closes the window and says so. */
  lemma {:induction false} RetiredPollSaysClosed(w: World, i: nat)
    requires i in w.reqs && w.reqs[i].ticket.phase.Held?
    ensures var v := ApplyPollRetired(w, i);
            && v.st.closed && (v.st.active.Some? ==> v.st.active.value.cancelled)
            && i in v.reqs && v.reqs[i].reported == w.reqs[i].reported + [Err(Closed)] && v.reqs[i].ticket == w.reqs[i].ticket
  {
  }

  /** Dropping a request ends it; undelivered, it is cancelled and its timer finished. */
  lemma {:induction false} DropEnds(w: World, i: nat)
    requires Inv(w) && i in w.reqs && w.reqs[i].ticket.phase.Held?
    ensures var v := ApplyDrop(w, i);
            && i in v.reqs
            && (w.reqs[i].ticket.delivered ==> v.reqs[i].ticket.phase.Gone? && v.st == w.st)
            && (!w.reqs[i].ticket.delivered ==>
                  && v.reqs[i].ticket.phase.Dropping? && (w.reqs[i].completion.Taken? || v.reqs[i].ticket.disarmed)
                  && (IsActive(w.st, i) ==> IsActive(v.st, i) && v.st.active.value.cancelled && v.reqs[i].ticket.disarmed))
  {
    assert Sound(w, i);
  }

  /** The gate, error by error. */
  lemma {:induction false} WriteRefusals(s: State, cap: Capture.State, generation: nat, id: nat, seen: bool, late: bool)
    ensures var r := BeginWriteLocked(s, cap, generation, id, seen, late).1;
            && (s.closed || !seen ==> r == Err(Closed))
            && (!s.closed && seen && !IsActive(s, id) ==> r == Err(Cancelled))
            && (!s.closed && seen && IsActive(s, id) ==>
                  var a := s.active.value;
                  && (a.cancelled ==> r == Err(Cancelled))
                  && (!a.cancelled && (a.timedOut || late) ==> r == Err(Timeout))
                  && (!a.cancelled && !a.timedOut && !late && a.writing ==> r == Err(Busy))
                  && (!a.cancelled && !a.timedOut && !late && !a.writing && cap.closed ==> r == Err(Closed))
                  && (!a.cancelled && !a.timedOut && !late && !a.writing && !cap.closed && cap.retained.None? ==> r == Err(Released)))
    ensures BeginWriteLocked(s, cap, generation, id, seen, late).1.Ok? ==>
              BeginWriteLocked(s, cap, generation, id, seen, late).0 == s.(active := Some(s.active.value.(writing := true)))
    ensures BeginWriteLocked(s, cap, generation, id, seen, late).1.Err? ==>
              BeginWriteLocked(s, cap, generation, id, seen, late).0 == s
  {
  }

  /** The reply, case by case. */
  lemma {:induction false} AnswerExactly(a: Active, sawClosed: bool, late: bool,
                                         lease: Result<seq<byte>, Capture.CaptureError>, result: Answer)
    ensures sawClosed ==> AnswerFor(a, sawClosed, late, lease, result) == Err(Closed)
    ensures !sawClosed && a.cancelled ==> AnswerFor(a, sawClosed, late, lease, result) == Err(Cancelled)
    ensures !sawClosed && !a.cancelled && (a.timedOut || late) ==> AnswerFor(a, sawClosed, late, lease, result) == Err(Timeout)
    ensures !sawClosed && !a.cancelled && !a.timedOut && !late ==>
              AnswerFor(a, sawClosed, late, lease, result) ==
              (if lease.Ok? then result else if lease.error == Capture.Closed then Err(Closed) else Err(Released))
  {
  }
}
