/** What the clipboard protocol guarantees in every interleaving with the capture protocol. */
module ClipboardTheorems {
  import opened Common
  import opened Tickets
  import opened Clipboard
  import opened ClipboardProtocol
  import opened ClipboardInvariant
  import opened ClipboardGrowth
  import Capture
  import CI = CaptureInvariant
  import CG = CaptureGrowth
  import CP = CaptureProtocol
  import CT = CaptureTheorems

  ghost predicate Reachable(w: World)
  {
    exists generation, run :: Valid(Init(generation), run) && w == Exec(Init(generation), run)
  }

  lemma {:induction false} RunKeepsInv(w: World, run: seq<Step>)
    requires Inv(w) && Valid(w, run)
    ensures Inv(Exec(w, run))
    decreases |run|
  {
    if run != [] {
      StepKeepsInv(w, run[0]);
      RunKeepsInv(Apply(w, run[0]), run[1..]);
    }
  }

  lemma {:induction false} ReachableInv(w: World)
    requires Reachable(w)
    ensures Inv(w)
  {
    var generation, run :| Valid(Init(generation), run) && w == Exec(Init(generation), run);
    InitInv(generation);
    RunKeepsInv(Init(generation), run);
  }

  // ----- the write gate -----

  /**
   At the instant `writing` turns true, the request was neither cancelled, timed out
   nor past its deadline, the window is open, it is the request's first write, and
   its token names exactly the PNG retained for the current document and viewport.
   */
  lemma {:induction false} WriteGate(w: World, i: nat, seen: bool, late: bool)
    requires Reachable(w) && Enabled(w, BeginWrite(i, seen, late))
    requires BeginWriteLocked(w.st, w.cap.st, w.cap.generation, i, seen, late).1.Ok?
    ensures IsActive(w.st, i) && !w.st.closed && !w.cap.st.closed && !late
    ensures !w.st.active.value.cancelled && !w.st.active.value.timedOut
    ensures w.reqs[i].writes == 0 && Apply(w, BeginWrite(i, seen, late)).reqs[i].writes == 1
    ensures Capture.IsRetained(w.cap.st, w.reqs[i].token.id) && w.cap.st.finished
    ensures w.reqs[i].token == Capture.Token(w.cap.generation, w.reqs[i].token.id, w.cap.st.epoch, w.cap.st.revision)
  {
    ReachableInv(w);
    assert Sound(w, i);
  }

  /** The gate is exact: an unblocked request that is in time and has not written yet is let through. */
  lemma {:induction false} WriteGateExactly(w: World, i: nat, seen: bool, late: bool)
    requires Inv(w) && i in w.reqs
    ensures BeginWriteLocked(w.st, w.cap.st, w.cap.generation, i, seen, late).1.Ok? <==>
            seen && !late && !Blocked(w, i) && w.reqs[i].writes == 0
  {
    assert Sound(w, i);
  }

  /** `writing` turns true at most once per request, in every run. */
  lemma {:induction false} WritesAtMostOnce(w: World, i: nat)
    requires Reachable(w) && i in w.reqs
    ensures w.reqs[i].writes <= 1
  {
    ReachableInv(w);
    assert Sound(w, i);
  }

  /** Something has already ruled out the native write of request `i`. */
  predicate Blocked(w: World, i: nat)
    requires i in w.reqs
  {
    || w.st.closed
    || !IsActive(w.st, i)
    || w.st.active.value.cancelled
    || w.st.active.value.timedOut
    || !CP.Backed(w.cap, w.reqs[i].token)
  }

  lemma {:induction false} StepKeepsBlocked(w: World, s: Step, i: nat)
    requires Inv(w) && Enabled(w, s) && i in w.reqs && Blocked(w, i)
    ensures i in Apply(w, s).reqs && Blocked(Apply(w, s), i)
  {
    StepKept(w, s, i);
    if s.OfCapture? {
      assert Sound(w, i);
      CaptureStepKeepsTokens(w.cap, s.step, w.reqs[i].token);
    } else {
      assert Apply(w, s).cap == w.cap;
    }
  }

  /** Whatever blocks a write blocks it for good: no later `begin_write` succeeds. */
  lemma {:induction false} BlockedNeverWrites(w: World, run: seq<Step>, i: nat, seen: bool, late: bool)
    requires Inv(w) && Valid(w, run) && i in w.reqs && Blocked(w, i)
    ensures var v := Exec(w, run);
            BeginWriteLocked(v.st, v.cap.st, v.cap.generation, i, seen, late).1.Err?
    decreases |run|
  {
    if run == [] {
      assert Sound(w, i);
    } else {
      StepKeepsInv(w, run[0]);
      StepKeepsBlocked(w, run[0], i);
      BlockedNeverWrites(Apply(w, run[0]), run[1..], i, seen, late);
    }
  }

  /** A token loses its PNG exactly when a capture step discards the PNG it names. */
  lemma {:induction false} UnbackedExactly(cap: CP.World, s: CP.Step, t: Token)
    requires CP.Inv(cap) && CP.Enabled(cap, s) && CP.Backed(cap, t)
    ensures CP.Backed(CP.Apply(cap, s), t) <==> !CT.Discards(cap, s, t.id)
  {
    CT.DiscardedExactly(cap, s, t.id);
    CI.StepKeepsInv(cap, s);
    CG.StepGrows(cap, s);
    if !CT.Discards(cap, s, t.id) { KeptRetained(cap, s); }
  }

  lemma {:induction false} KeptRetained(cap: CP.World, s: CP.Step)
    requires CP.Inv(cap) && CP.Enabled(cap, s) && CP.Inv(CP.Apply(cap, s)) && CG.Grows(cap, CP.Apply(cap, s))
    requires cap.st.retained.Some? && CP.Apply(cap, s).st.retained == cap.st.retained
    ensures var v := CP.Apply(cap, s);
            v.st.epoch == cap.st.epoch && v.st.revision == cap.st.revision && v.st.finished && !v.st.closed
            && v.generation == cap.generation
  {
  }

  /** A step that cancels, times out, retires, ends or drops request `i`, or takes its PNG away. */
  predicate Stops(w: World, s: Step, i: nat)
    requires i in w.reqs && Enabled(w, s)
  {
    match s
    case OfCapture(c) => CT.Discards(w.cap, c, w.reqs[i].token.id)
    case Cancel(k, _) => k == i
    case CancelDoomed(k) => k == i
    case WorkerTimeout(k) => k == i
    case PollTimeout(k) => k == i
    case CloseSilent => true
    case PollRetired(_) => true
    case Abort(k) => k == i
    case Callback(k, _, _) => k == i
    case Drop(k) => k == i && !w.reqs[i].ticket.delivered
    case _ => false
  }

  lemma {:induction false} BeginningStops(w: World, s: Step, i: nat)
    requires Inv(w) && i in w.reqs && Enabled(w, s) && !Blocked(w, i) && KindOf(s).Beginning?
    ensures i in Apply(w, s).reqs && (Blocked(Apply(w, s), i) <==> Stops(w, s, i))
  {
    if s.OfCapture? {
      UnbackedExactly(w.cap, s.step, w.reqs[i].token);
    } else {
      assert Apply(w, s).cap == w.cap;
    }
  }

  lemma {:induction false} WorkingStops(w: World, s: Step, i: nat)
    requires Inv(w) && i in w.reqs && Enabled(w, s) && !Blocked(w, i) && KindOf(s).Working?
    ensures i in Apply(w, s).reqs && (Blocked(Apply(w, s), i) <==> Stops(w, s, i))
  {
    assert Apply(w, s).cap == w.cap;
    if s.Callback? { assert Sound(w, s.id); }
  }

  lemma {:induction false} CancellingStops(w: World, s: Step, i: nat)
    requires Inv(w) && i in w.reqs && Enabled(w, s) && !Blocked(w, i) && KindOf(s).Cancelling?
    ensures i in Apply(w, s).reqs && (Blocked(Apply(w, s), i) <==> Stops(w, s, i))
  {
    assert Apply(w, s).cap == w.cap;
  }

  lemma {:induction false} PollingStops(w: World, s: Step, i: nat)
    requires Inv(w) && i in w.reqs && Enabled(w, s) && !Blocked(w, i) && KindOf(s).Polling?
    ensures i in Apply(w, s).reqs && (Blocked(Apply(w, s), i) <==> Stops(w, s, i))
  {
    assert Apply(w, s).cap == w.cap;
  }

  /**
   What can stop a write that is still possible, exactly: release, retake, navigation,
   resize, the drop of the capture, cancellation, timeout, drop, retirement, close, and
   the end of the operation itself. No other step of either machine does.
   */
  lemma {:induction false} StopsExactly(w: World, s: Step, i: nat)
    requires Inv(w) && i in w.reqs && Enabled(w, s) && !Blocked(w, i)
    ensures i in Apply(w, s).reqs && (Blocked(Apply(w, s), i) <==> Stops(w, s, i))
  {
    match KindOf(s)
    case Beginning => BeginningStops(w, s, i);
    case Working => WorkingStops(w, s, i);
    case Cancelling => CancellingStops(w, s, i);
    case Polling => PollingStops(w, s, i);
  }

  lemma {:induction false} StopBlocks(w: World, s: Step, i: nat)
    requires Inv(w) && i in w.reqs && Enabled(w, s) && Stops(w, s, i)
    ensures i in Apply(w, s).reqs && Blocked(Apply(w, s), i)
  {
    if Blocked(w, i) { StepKeepsBlocked(w, s, i); } else { StopsExactly(w, s, i); }
  }

  /**
   Release, retake, navigation, resize, cancellation, timeout, drop, retirement or close
   whose locked step comes first prevents the native write, in every continuation.
   */
  lemma {:induction false} EarlierStopPreventsWrite(w: World, s: Step, run: seq<Step>, i: nat, seen: bool, late: bool)
    requires Reachable(w) && i in w.reqs && Enabled(w, s) && Stops(w, s, i) && Valid(Apply(w, s), run)
    ensures var v := Exec(Apply(w, s), run);
            BeginWriteLocked(v.st, v.cap.st, v.cap.generation, i, seen, late).1.Err?
  {
    ReachableInv(w);
    StepKeepsInv(w, s);
    StopBlocks(w, s, i);
    BlockedNeverWrites(Apply(w, s), run, i, seen, late);
  }

  // ----- check-then-cancel -----

  predicate Dead(w: World, t: Token)
  {
    !w.cap.hostActive || !CP.Backed(w.cap, t)
  }

  lemma {:induction false} StepKeepsDead(w: World, s: Step, t: Token)
    requires CP.Inv(w.cap) && Enabled(w, s) && CP.Minted(w.cap, t) && Dead(w, t)
    ensures CP.Minted(Apply(w, s).cap, t) && Dead(Apply(w, s), t)
  {
    if s.OfCapture? {
      CaptureStepKeepsTokens(w.cap, s.step, t);
    } else {
      assert Apply(w, s).cap == w.cap;
    }
  }

  lemma {:induction false} DeadStaysDead(w: World, run: seq<Step>, t: Token)
    requires Inv(w) && Valid(w, run) && CP.Minted(w.cap, t) && Dead(w, t)
    ensures Dead(Exec(w, run), t)
    decreases |run|
  {
    if run != [] {
      StepKeepsInv(w, run[0]);
      StepKeepsDead(w, run[0], t);
      DeadStaysDead(Apply(w, run[0]), run[1..], t);
    }
  }

  /** The cancellation touches one request, and only while it is the active one. */
  lemma {:induction false} CancelTouchesOnly(w: World, i: nat)
    requires i in w.reqs
    ensures var v := CancelRequest(w, i, Released);
            && (!IsActive(w.st, i) ==> v == w)
            && forall j :: j in w.reqs && j != i ==> j in v.reqs && v.reqs[j] == w.reqs[j]
  {
  }

  /** A request that is active is active with its own token. */
  lemma {:induction false} ActiveToken(w: World, i: nat)
    requires Inv(w) && i in w.reqs
    ensures IsActive(w.st, i) ==> w.st.active.value.token == w.reqs[i].token
  {
    assert Sound(w, i);
  }

  /** When `cancel_invalidated` goes on to cancel request `i`, the token of `i` is dead, then and in every later state. */
  lemma {:induction false} CondemnedIsDead(w: World, run: seq<Step>, i: nat)
    requires Reachable(w) && Enabled(w, CancelDoomed(i)) && Valid(w, run)
    ensures i in w.reqs && Dead(w, w.reqs[i].token)
    ensures Dead(Exec(w, run), w.reqs[i].token)
  {
    ReachableInv(w);
    assert Sound(w, i);
    DeadStaysDead(w, run, w.reqs[i].token);
  }

  /**
   `cancel_invalidated` checks and cancels under two different locks: the cancellation
   touches the condemned request only, and only while it is still the active one, so a
   request that came later is never cancelled in its place.
   */
  lemma {:induction false} CondemnedAlone(w: World, i: nat)
    requires Reachable(w) && Enabled(w, CancelDoomed(i))
    ensures IsActive(w.st, i) ==> w.st.active.value.token == w.reqs[i].token
    ensures var v := CancelRequest(w, i, Released);
            && Apply(w, CancelDoomed(i)) == v
            && (!IsActive(w.st, i) ==> v == w)
            && forall j :: j in w.reqs && j != i ==> j in v.reqs && v.reqs[j] == w.reqs[j]
  {
    ReachableInv(w);
    ActiveToken(w, i);
    CancelTouchesOnly(w, i);
  }

  // ----- what a request is told -----

  /** Admission: exactly which windows accept a write, and what refuses it otherwise. */
  lemma {:induction false} ClaimExactly(s: State, t: Token, seen: bool)
    ensures ClaimLocked(s, t, seen).Ok? <==>
            seen && !s.closed && s.active.None? && s.nextId < 0xFFFF_FFFF_FFFF_FFFF
    ensures ClaimLocked(s, t, seen).Ok? ==>
              var (u, id) := ClaimLocked(s, t, seen).value;
              && id == s.nextId + 1 == u.nextId && !u.closed && IsActive(u, id) && u.active.value.token == t
              && !u.active.value.cancelled && !u.active.value.writing && !u.active.value.timedOut
    ensures s.closed || !seen ==> ClaimLocked(s, t, seen) == Err(Closed)
    ensures !s.closed && seen && s.active.Some? ==> ClaimLocked(s, t, seen) == Err(Busy)
    ensures !s.closed && seen && s.active.None? && s.nextId >= 0xFFFF_FFFF_FFFF_FFFF ==> ClaimLocked(s, t, seen) == Err(Scheduler)
  {
  }

  /** The token names the PNG retained for the current document and viewport. */
  predicate NamesRetained(cap: CP.World, t: Token)
  {
    && cap.st.retained.Some? && t.generation == cap.generation && t.id == cap.st.retained.value.id
    && t.epoch == cap.st.epoch && t.revision == cap.st.revision
  }

  /** The answer to a native reply that nothing has pre-empted. */
  function Expected(w: World, i: nat, seen: bool, late: bool): Answer
    requires i in w.reqs && w.reqs[i].completion.TimerFinished?
  {
    if w.reqs[i].completion.sawClosed then Err(Closed)
    else if late then Err(Timeout)
    else if !seen || w.cap.st.closed then Err(Closed)
    else if !NamesRetained(w.cap, w.reqs[i].token) then Err(Released)
    else w.reqs[i].completion.result
  }

  /**
   A write that nothing has interrupted ends as its native side says: with no outcome
   issued and the request kept, the reply issues exactly the native result if the window
   was open, in time, and the token still names the retained PNG, whether it wrote or not.
   */
  lemma {:induction false} UndisturbedWriteEnds(w: World, i: nat, seen: bool, late: bool)
    requires Reachable(w) && Enabled(w, Reply(i, seen, late)) && Undisputed(w.reqs[i].ticket)
    ensures var v := ApplyReply(w, i, seen, late);
            && v.reqs[i].ticket.issued == [Expected(w, i, seen, late)]
            && Expected(w, i, seen, late) in v.reqs[i].ticket.pending
  {
    ReachableInv(w);
    assert Sound(w, i);
    var o := Expected(w, i, seen, late);
    assert ReplyOf(w, i, seen, late) == o;
    assert o in multiset{o};
  }

  /** The last check of a poll: a success is reported exactly if the token is leasable then. */
  lemma {:induction false} DeliveryExactly(w: World, i: nat, seen: bool)
    requires Inv(w) && i in w.reqs
    ensures Delivery(w, i, seen).Ok? <==> seen && NamesRetained(w.cap, w.reqs[i].token)
    ensures !seen || w.cap.st.closed ==> Delivery(w, i, seen) == Err(Closed)
    ensures seen && !w.cap.st.closed && !NamesRetained(w.cap, w.reqs[i].token) ==> Delivery(w, i, seen) == Err(Released)
  {
  }

  lemma {:induction false} WorkerAges(w: World, s: Step, i: nat)
    requires Enabled(w, s) && (s == WorkerWake(i) || s == WorkerTimeout(i) || s == WorkerExit(i))
    ensures i in w.reqs && i in Apply(w, s).reqs
    ensures Age(w.reqs[i].ticket.worker) < Age(Apply(w, s).reqs[i].ticket.worker) <= 4
  {
  }

  lemma {:induction false} ThreadCanMove(w: World, i: nat) returns (s: Step)
    requires Inv(w) && i in w.pool.holders && i in w.reqs && !w.reqs[i].ticket.phase.Claimed?
    requires w.reqs[i].ticket.disarmed
    ensures Enabled(w, s) && (s == WorkerWake(i) || s == WorkerTimeout(i) || s == WorkerExit(i))
  {
    assert Sound(w, i);
    PoolSteps(w.pool, i);
    s := match w.reqs[i].ticket.worker
      case Waiting => WorkerWake(i)
      case Firing => WorkerTimeout(i)
      case _ => WorkerExit(i);
  }

  /** A deadline thread whose request is over, or cancelled while open, can go on to its exit at once. */
  lemma {:induction false} DeadlineThreadExits(w: World, i: nat) returns (s: Step)
    requires Reachable(w) && i in w.pool.holders && i in w.reqs && !w.reqs[i].ticket.phase.Claimed?
    requires !w.reqs[i].completion.Taken?
    requires !IsActive(w.st, i) || (w.st.active.value.cancelled && !w.st.closed)
    ensures Enabled(w, s) && i in Apply(w, s).reqs
    ensures Age(w.reqs[i].ticket.worker) < Age(Apply(w, s).reqs[i].ticket.worker) <= 4
  {
    ReachableInv(w);
    assert Sound(w, i);
    s := ThreadCanMove(w, i);
    WorkerAges(w, s, i);
  }

  // ----- outcomes, deadlines, bounds -----

  /** Every outcome ever issued to a request is a failure, or there is exactly one and it is the success. */
  lemma {:induction false} OutcomesExclusive(w: World, i: nat)
    requires Reachable(w) && i in w.reqs
    ensures var issued := w.reqs[i].ticket.issued;
            (forall o :: o in issued ==> o.Err?) || (|issued| == 1 && issued[0].Ok?)
  {
    ReachableInv(w);
    assert Sound(w, i);
  }

  lemma {:induction false} BeginningReportsNothing(w: World, s: Step, i: nat)
    requires Enabled(w, s) && i in w.reqs && i in Apply(w, s).reqs && KindOf(s).Beginning?
    requires forall i :: i in w.reqs ==> i <= w.st.nextId
    ensures Apply(w, s).reqs[i].reported == w.reqs[i].reported
  {
  }

  lemma {:induction false} WorkingReportsNothing(w: World, s: Step, i: nat)
    requires Enabled(w, s) && i in w.reqs && i in Apply(w, s).reqs && KindOf(s).Working?
    ensures Apply(w, s).reqs[i].reported == w.reqs[i].reported
  {
  }

  lemma {:induction false} CancellingReportsNothing(w: World, s: Step, i: nat)
    requires Enabled(w, s) && i in w.reqs && i in Apply(w, s).reqs && KindOf(s).Cancelling?
    ensures Apply(w, s).reqs[i].reported == w.reqs[i].reported
  {
  }

  lemma {:induction false} LeavingReportsNothing(w: World, s: Step, i: nat)
    requires Enabled(w, s) && i in w.reqs && i in Apply(w, s).reqs && (s.PollTimeout? || s.Drop? || s.FreeSlot?)
    ensures Apply(w, s).reqs[i].reported == w.reqs[i].reported
  {
  }

  /** Some result that was not reported before is a success. */
  predicate NewSuccess(was: seq<Answer>, now: seq<Answer>)
  {
    exists k :: |was| <= k < |now| && now[k].Ok?
  }

  lemma {:induction false} FailuresReported(w: World, k: nat, i: nat)
    requires k in w.reqs && i in w.reqs
    ensures !NewSuccess(w.reqs[i].reported, ApplyPollRetired(w, k).reqs[i].reported)
    ensures w.reqs[k].ticket.slot.Some? ==> !NewSuccess(w.reqs[i].reported, ApplyPollSlot(w, k).reqs[i].reported)
  {
  }

  lemma {:induction false} DeliveryReported(w: World, k: nat, seen: bool, i: nat)
    requires k in w.reqs && i in w.reqs
    ensures NewSuccess(w.reqs[i].reported, ApplyDeliver(w, k, seen).reqs[i].reported) ==>
              k == i && seen && CP.Backed(w.cap, w.reqs[i].token)
  {
  }

  lemma {:induction false} PollReportsFailures(w: World, s: Step, i: nat)
    requires Enabled(w, s) && i in w.reqs && i in Apply(w, s).reqs && (s.PollRetired? || s.PollSlot?)
    ensures !NewSuccess(w.reqs[i].reported, Apply(w, s).reqs[i].reported)
  {
    FailuresReported(w, s.id, i);
  }

  /** Only the last check of a poll reports a success, and only of a token that is leasable then. */
  lemma {:induction false} DeliverReports(w: World, s: Step, i: nat)
    requires Enabled(w, s) && i in w.reqs && i in Apply(w, s).reqs && s.Deliver?
    ensures NewSuccess(w.reqs[i].reported, Apply(w, s).reqs[i].reported) ==>
              s == Deliver(i, true) && CP.Backed(w.cap, w.reqs[i].token)
  {
    DeliveryReported(w, s.id, s.seen, i);
  }

  lemma {:induction false} DeliveredNamesRetained(w: World, i: nat)
    requires Inv(w) && i in w.reqs && w.reqs[i].ticket.phase.Validating? && CP.Backed(w.cap, w.reqs[i].token)
    ensures |w.reqs[i].ticket.issued| == 1 && w.reqs[i].ticket.issued[0].Ok?
    ensures Capture.IsRetained(w.cap.st, w.reqs[i].token.id)
    ensures w.reqs[i].token == Capture.Token(w.cap.generation, w.reqs[i].token.id, w.cap.st.epoch, w.cap.st.revision)
  {
    assert Sound(w, i);
    assert w.reqs[i].ticket.phase.answer in w.reqs[i].ticket.issued;
  }

  /** Step `s` reports a success to request `i`. */
  predicate ReportsSuccess(w: World, s: Step, i: nat)
    requires Enabled(w, s)
  {
    i in w.reqs && i in Apply(w, s).reqs && NewSuccess(w.reqs[i].reported, Apply(w, s).reqs[i].reported)
  }

  /**
   A success is reported only by the last lease check of a poll, to a request whose one
   outcome is the success, and its token then names the PNG retained for the current
   document and viewport.
   */
  lemma {:induction false} ReportedSuccessIsLeasable(w: World, s: Step, i: nat)
    requires Reachable(w) && Enabled(w, s) && ReportsSuccess(w, s, i)
    ensures s == Deliver(i, true) && |w.reqs[i].ticket.issued| == 1 && w.reqs[i].ticket.issued[0].Ok?
    ensures Capture.IsRetained(w.cap.st, w.reqs[i].token.id)
    ensures w.reqs[i].token == Capture.Token(w.cap.generation, w.reqs[i].token.id, w.cap.st.epoch, w.cap.st.revision)
  {
    ReachableInv(w);
    match KindOf(s)
    case Beginning => BeginningReportsNothing(w, s, i);
    case Working => WorkingReportsNothing(w, s, i);
    case Cancelling => CancellingReportsNothing(w, s, i);
    case Polling =>
      if s.Deliver? {
        DeliverReports(w, s, i);
        DeliveredNamesRetained(w, i);
      } else if s.PollRetired? || s.PollSlot? {
        PollReportsFailures(w, s, i);
      } else {
        LeavingReportsNothing(w, s, i);
      }
  }

  /** A held, unanswered request has its outcome coming, or its deadline still armed. */
  lemma {:induction false} DeadlineStaysArmed(w: World, i: nat)
    requires Reachable(w) && i in w.reqs && w.reqs[i].ticket.phase.Held? && !w.reqs[i].ticket.delivered
    ensures var t := w.reqs[i].ticket;
            || t.slot.Some?
            || t.pending != multiset{}
            || w.reqs[i].completion.Taken? || w.reqs[i].completion.TimerFinished?
            || (w.reqs[i].native && !t.disarmed && (t.worker.Waiting? || t.worker.Firing?))
  {
    ReachableInv(w);
    assert Sound(w, i);
  }

  /** A finished timer is explained. */
  lemma {:induction false} DisarmedIsExplained(w: World, i: nat)
    requires Reachable(w) && i in w.reqs && w.reqs[i].ticket.disarmed
    ensures var t := w.reqs[i].ticket;
            t.settled || t.pending != multiset{} || w.reqs[i].completion.TimerFinished? || t.phase.Dropping? || t.phase.Gone?
  {
    ReachableInv(w);
    assert Sound(w, i);
  }

  /** The host holds the request and has not been given its outcome. */
  predicate Awaiting(w: World, i: nat)
  {
    i in w.reqs && w.reqs[i].ticket.phase.Held? && !w.reqs[i].ticket.delivered
  }

  /** How many due steps the outcome is away from the slot. */
  function Rank(r: Request): nat
  {
    var t := r.ticket;
    if t.slot.Some? then 0
    else if t.pending != multiset{} then 1
    else if r.completion.TimerFinished? then 2
    else if r.completion.Taken? then 3
    else if t.worker.Firing? then 4
    else if t.worker.Waiting? then 5
    else 6
  }

  /** The step that brings the outcome of `i` nearer, whichever it is now. */
  predicate Due(w: World, s: Step, i: nat)
    requires i in w.reqs
  {
    match Rank(w.reqs[i])
    case 1 => s.Complete? && s.id == i
    case 2 => s.Reply? && s.id == i
    case 3 => s == FinishTimer(i)
    case 4 => s == WorkerTimeout(i)
    case 5 => s == WorkerWake(i)
    case _ => false
  }

  lemma {:induction false} RankBounded(w: World, i: nat)
    requires Inv(w) && Awaiting(w, i)
    ensures Rank(w.reqs[i]) <= 5
    ensures Rank(w.reqs[i]) <= 1 <==> w.reqs[i].ticket.issued != []
  {
    assert Sound(w, i);
  }

  /** Past the deadline a due step is enabled as long as the slot is empty. */
  lemma {:induction false} DueStep(w: World, i: nat) returns (s: Step)
    requires Inv(w) && Awaiting(w, i) && w.reqs[i].ticket.expired && w.reqs[i].ticket.slot.None?
    ensures Enabled(w, s) && Due(w, s, i)
  {
    assert Sound(w, i);
    var t := w.reqs[i].ticket;
    if t.pending != multiset{} {
      var o :| o in t.pending;
      s := Complete(i, o);
    } else if w.reqs[i].completion.TimerFinished? {
      s := Reply(i, true, t.expired);
    } else if w.reqs[i].completion.Taken? {
      s := FinishTimer(i);
    } else {
      s := if t.worker.Firing? then WorkerTimeout(i) else WorkerWake(i);
    }
  }

  lemma {:induction false} ReplyLowers(w: World, s: Step, i: nat)
    requires Inv(w) && Enabled(w, s) && Awaiting(w, i) && Due(w, s, i) && (s.Reply? || s.FinishTimer? || s.Complete?)
    ensures Awaiting(Apply(w, s), i) && Rank(Apply(w, s).reqs[i]) < Rank(w.reqs[i])
  {
    assert Sound(w, i);
    if s.Reply? {
      var o := ReplyOf(w, i, s.seen, s.late);
      assert o in Issue(w.reqs[i].ticket, o).pending;
    }
  }

  lemma {:induction false} DueLowers(w: World, s: Step, i: nat)
    requires Inv(w) && Enabled(w, s) && Awaiting(w, i) && Due(w, s, i)
    ensures Awaiting(Apply(w, s), i) && Rank(Apply(w, s).reqs[i]) < Rank(w.reqs[i])
  {
    if s.WorkerTimeout? {
      assert Sound(w, i);
      assert Err(Timeout) in Issue(w.reqs[i].ticket, Err(Timeout)).pending;
    } else if s.WorkerWake? {
      assert Sound(w, i);
    } else {
      ReplyLowers(w, s, i);
    }
  }

  /** No step of anybody takes the outcome further away. */
  lemma {:induction false} RankNeverRises(w: World, s: Step, i: nat)
    requires Inv(w) && Enabled(w, s) && Awaiting(w, i) && Awaiting(Apply(w, s), i)
    ensures Rank(Apply(w, s).reqs[i]) <= Rank(w.reqs[i])
  {
    StepKeepsInv(w, s);
    StepKept(w, s, i);
    RankOf(w, Apply(w, s), i);
  }

  lemma {:induction false} RankOf(w: World, v: World, i: nat)
    requires Inv(w) && Inv(v) && Awaiting(w, i) && Awaiting(v, i) && Kept(w, v, i)
    ensures Rank(v.reqs[i]) <= Rank(w.reqs[i])
  {
    assert Sound(w, i) && Sound(v, i);
    RankBounded(w, i);
    RankBounded(v, i);
    assert w.reqs[i].ticket.issued <= v.reqs[i].ticket.issued;
  }

  predicate AwaitingThroughout(w: World, run: seq<Step>, i: nat)
    requires Valid(w, run)
    decreases |run|
  {
    Awaiting(w, i) && (run != [] ==> AwaitingThroughout(Apply(w, run[0]), run[1..], i))
  }

  function DueSteps(w: World, run: seq<Step>, i: nat): nat
    requires Valid(w, run) && AwaitingThroughout(w, run, i)
    decreases |run|
  {
    if run == [] then 0
    else (if Due(w, run[0], i) then 1 else 0) + DueSteps(Apply(w, run[0]), run[1..], i)
  }

  lemma {:induction false} RankRun(w: World, run: seq<Step>, i: nat)
    requires Inv(w) && Valid(w, run) && AwaitingThroughout(w, run, i)
    ensures Inv(Exec(w, run)) && Awaiting(Exec(w, run), i)
    ensures Rank(Exec(w, run).reqs[i]) + DueSteps(w, run, i) <= Rank(w.reqs[i])
    ensures w.reqs[i].ticket.expired ==> Exec(w, run).reqs[i].ticket.expired
    decreases |run|
  {
    if run != [] {
      var v := Apply(w, run[0]);
      StepKeepsInv(w, run[0]);
      StepKept(w, run[0], i);
      assert Kept(w, v, i);
      if Due(w, run[0], i) { DueLowers(w, run[0], i); } else { RankNeverRises(w, run[0], i); }
      RankRun(v, run[1..], i);
    }
  }

  /**
   The deadline answers a held request, whatever everybody else does: in every
   continuation in which the host still waits, at most five due steps were taken, and
   past the deadline the outcome is in the slot or another due step is enabled.
   */
  lemma {:induction false} DeadlineAnswers(w: World, run: seq<Step>, i: nat)
    requires Reachable(w) && Valid(w, run) && AwaitingThroughout(w, run, i)
    ensures DueSteps(w, run, i) <= 5
    ensures Awaiting(Exec(w, run), i)
    ensures w.reqs[i].ticket.expired ==>
              || Exec(w, run).reqs[i].ticket.slot.Some?
              || exists s :: Enabled(Exec(w, run), s) && Due(Exec(w, run), s, i)
  {
    ReachableInv(w);
    RankRun(w, run, i);
    RankBounded(w, i);
    var v := Exec(w, run);
    if w.reqs[i].ticket.expired && v.reqs[i].ticket.slot.None? {
      var s := DueStep(v, i);
    }
  }

  /** At most one native clipboard operation is outstanding; ids are fresh; deadline threads are counted and bounded. */
  lemma {:induction false} OneNativeWrite(w: World, i: nat, j: nat, t: Token, seen: bool)
    requires Reachable(w) && i in w.reqs && j in w.reqs
    ensures w.reqs[i].native && w.reqs[j].native ==> i == j
    ensures w.reqs[i].native ==> ClaimLocked(w.st, t, seen).Err?
    ensures ClaimLocked(w.st, t, seen).Ok? ==> i < ClaimLocked(w.st, t, seen).value.1
    ensures w.pool.count == |w.pool.holders| <= 8
  {
    ReachableInv(w);
    assert Sound(w, i) && Sound(w, j);
  }
}
