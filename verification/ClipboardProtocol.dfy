/**
 The clipboard protocol layered on the capture protocol. A step is a step of the
 capture machine of the same window, one clipboard critical section, one
 `Slot::complete`, or an event of the environment.
 */
module ClipboardProtocol {
  import opened Common
  import opened Tickets
  import opened Clipboard
  import Capture
  import CP = CaptureProtocol

  /** The stages of `complete` after it has taken the operation out of the mutex. */
  datatype Completion =
    | NotTaken
    | Taken(a: Active, sawClosed: bool, result: Answer)
    | TimerFinished(a: Active, sawClosed: bool, result: Answer)
    | Answered

  /**
   `suspected`: some `cancel_invalidated` has read this request as the active one;
   `doomed`: its lease check failed and it is about to cancel; `cancels`: reasons
   with which other callers that read this request are about to cancel; `writes`
   counts the times `writing` turned true; `reported` lists poll results.
   */
  datatype Request = Request(
    token: Token, native: bool, ticket: Ticket<Answer>, completion: Completion,
    suspected: bool, doomed: bool, cancels: set<ClipboardError>, writes: nat, reported: seq<Answer>)

  /** `admitted` holds the tokens some `begin` found leasable. */
  datatype World = World(
    cap: CP.World, st: State, pool: Pool, reqs: map<nat, Request>, admitted: set<Token>)

  function Init(generation: nat): World
  {
    World(CP.Init(generation), INITIAL, Pool(0, 0, {}), map[], {})
  }

  datatype Step =
    | OfCapture(step: CP.Step)
    | Expire(id: nat)
    // begin
    | Admit(token: Token)
    | Claim(token: Token, seen: bool)
    | ReserveTimer(id: nat)
    | StartDeadline(id: nat, spawned: bool)
    | Submit(id: nat, accepted: bool)
    | Abort(id: nat)
    | HandOut(id: nat)
    // deadline thread
    | WorkerWake(id: nat)
    | WorkerTimeout(id: nat)
    | WorkerExit(id: nat)
    // native side
    | BeginWrite(id: nat, seen: bool, late: bool)
    | Callback(id: nat, result: Answer, seen: bool)
    | FinishTimer(id: nat)
    | Reply(id: nat, seen: bool, late: bool)
    | Complete(id: nat, answer: Answer)
    // cancellation
    | Suspect
    | CheckSuspect(id: nat, seen: bool)
    | CancelDoomed(id: nat)
    | ReadForNavigation
    | ReadForToken(token: Token)
    | Cancel(id: nat, reason: ClipboardError)
    | CloseSilent
    | NotifyClosed
    // the request future
    | PollRetired(id: nat)
    | PollTimeout(id: nat)
    | PollSlot(id: nat)
    | Deliver(id: nat, seen: bool)
    | Drop(id: nat)
    | FreeSlot(id: nat)

  /** Who takes a step: a caller of `begin`, the threads behind a request, a canceller, the future. */
  datatype Kind = Beginning | Working | Cancelling | Polling

  function KindOf(s: Step): Kind
  {
    match s
    case OfCapture(_) => Beginning
    case Expire(_) => Beginning
    case Admit(_) => Beginning
    case Claim(_, _) => Beginning
    case ReserveTimer(_) => Beginning
    case StartDeadline(_, _) => Beginning
    case Submit(_, _) => Beginning
    case Abort(_) => Beginning
    case HandOut(_) => Beginning
    case WorkerWake(_) => Working
    case WorkerTimeout(_) => Working
    case WorkerExit(_) => Working
    case BeginWrite(_, _, _) => Working
    case Callback(_, _, _) => Working
    case FinishTimer(_) => Working
    case Reply(_, _, _) => Working
    case Complete(_, _) => Working
    case Suspect => Cancelling
    case CheckSuspect(_, _) => Cancelling
    case ReadForNavigation => Cancelling
    case ReadForToken(_) => Cancelling
    case CancelDoomed(_) => Cancelling
    case Cancel(_, _) => Cancelling
    case CloseSilent => Cancelling
    case NotifyClosed => Cancelling
    case PollRetired(_) => Polling
    case PollTimeout(_) => Polling
    case PollSlot(_) => Polling
    case Deliver(_, _) => Polling
    case Drop(_) => Polling
    case FreeSlot(_) => Polling
  }

  predicate Enabled(w: World, s: Step)
  {
    match s
    case OfCapture(c) => CP.Enabled(w.cap, c)
    case Expire(i) => i in w.reqs
    case Admit(t) => CP.Backed(w.cap, t)
    case Claim(t, seen) => t in w.admitted && (w.cap.hostActive ==> seen)
    case ReserveTimer(i) => i in w.reqs && w.reqs[i].ticket.phase.Claimed? && i !in w.pool.holders
    case StartDeadline(i, _) => i in w.reqs && w.reqs[i].ticket.phase.Claimed? && i in w.pool.holders && w.pool.count > 0
    case Submit(i, _) => i in w.reqs && w.reqs[i].ticket.phase.Timed?
    case Abort(i) => i in w.reqs && w.reqs[i].ticket.phase.Failed?
    case HandOut(i) => i in w.reqs && w.reqs[i].ticket.phase.Submitted?
    case WorkerWake(i) => i in w.reqs && CanWake(w.reqs[i].ticket)
    case WorkerTimeout(i) => i in w.reqs && w.reqs[i].ticket.worker.Firing?
    case WorkerExit(i) => i in w.reqs && w.reqs[i].ticket.worker.Done? && w.pool.count > 0
    case BeginWrite(i, seen, late) =>
      i in w.reqs && w.reqs[i].native && (w.cap.hostActive ==> seen) && (late ==> w.reqs[i].ticket.expired)
    case Callback(i, _, seen) => i in w.reqs && w.reqs[i].native && (w.cap.hostActive ==> seen)
    case FinishTimer(i) => i in w.reqs && w.reqs[i].completion.Taken?
    case Reply(i, seen, late) =>
      i in w.reqs && w.reqs[i].completion.TimerFinished? && (w.cap.hostActive ==> seen) && (late ==> w.reqs[i].ticket.expired)
    case Complete(i, o) => i in w.reqs && o in w.reqs[i].ticket.pending
    case Suspect => true
    case CheckSuspect(i, seen) => i in w.reqs && w.reqs[i].suspected && (w.cap.hostActive ==> seen)
    case CancelDoomed(i) => i in w.reqs && w.reqs[i].doomed
    case ReadForNavigation => true
    case ReadForToken(_) => true
    case Cancel(i, reason) => i in w.reqs && reason in w.reqs[i].cancels
    case CloseSilent => true
    case NotifyClosed => w.st.closed
    case PollRetired(i) => i in w.reqs && w.reqs[i].ticket.phase.Held? && !w.cap.hostActive
    case PollTimeout(i) => i in w.reqs && w.reqs[i].ticket.phase.Held? && w.reqs[i].ticket.expired
    case PollSlot(i) => i in w.reqs && w.reqs[i].ticket.phase.Held? && w.reqs[i].ticket.slot.Some?
    case Deliver(i, seen) => i in w.reqs && w.reqs[i].ticket.phase.Validating? && (w.cap.hostActive ==> seen)
    case Drop(i) => i in w.reqs && w.reqs[i].ticket.phase.Held?
    case FreeSlot(i) => i in w.reqs && w.reqs[i].ticket.phase.Dropping?
  }

  function SetTicket(w: World, i: nat, t: Ticket<Answer>): World
    requires i in w.reqs
  {
    w.(reqs := w.reqs[i := w.reqs[i].(ticket := t)])
  }

  /** `timeout`, called by the deadline thread or by a late poll. */
  function TimeOut(w: World, i: nat): World
    requires i in w.reqs
  {
    var v := w.(st := TimeoutLocked(w.st, i));
    if IsActive(w.st, i) then SetTicket(v, i, Issue(v.reqs[i].ticket, Err(Timeout))) else v
  }

  /** `cancel`: marks, disarms and tells the request, if it is still the active one. */
  function CancelRequest(w: World, i: nat, reason: ClipboardError): World
    requires i in w.reqs
  {
    var v := w.(st := CancelLocked(w.st, i));
    if IsActive(w.st, i) then SetTicket(v, i, Issue(Disarm(v.reqs[i].ticket), Err(reason))) else v
  }

  function ApplyClaim(w: World, t: Token, seen: bool): World
  {
    match ClaimLocked(w.st, t, seen)
    case Err(_) => w
    case Ok((st, i)) =>
      w.(st := st, reqs := w.reqs[i := Request(t, false, Opened(), NotTaken, false, false, {}, 0, [])])
  }

  function ApplyReserve(w: World, i: nat): World
    requires i in w.reqs
  {
    if HasRoom(w.pool) then w.(pool := Attach(Reserve(w.pool), i))
    else SetTicket(w, i, w.reqs[i].ticket.(phase := Failed, worker := Exited))
  }

  function ApplyStart(w: World, i: nat, spawned: bool): World
    requires i in w.reqs && w.pool.count > 0
  {
    var t := w.reqs[i].ticket;
    if spawned then SetTicket(w, i, t.(phase := Timed, worker := Waiting))
    else SetTicket(w, i, t.(phase := Failed, worker := Exited)).(pool := Release(w.pool, i))
  }

  function ApplySubmit(w: World, i: nat, accepted: bool): World
    requires i in w.reqs
  {
    var r := w.reqs[i];
    if accepted
    then w.(reqs := w.reqs[i := r.(native := true, ticket := r.ticket.(phase := Submitted))])
    else SetTicket(w, i, r.ticket.(phase := Failed))
  }

  function ApplyAbort(w: World, i: nat): World
    requires i in w.reqs
  {
    var v := w.(st := AbortLocked(w.st, i));
    var t := w.reqs[i].ticket;
    SetTicket(v, i, t.(phase := Gone, disarmed := t.disarmed || IsActive(w.st, i)))
  }

  function ApplyWorkerTimeout(w: World, i: nat): World
    requires i in w.reqs
  {
    var v := TimeOut(w, i);
    SetTicket(v, i, v.reqs[i].ticket.(worker := Done))
  }

  function ApplyExit(w: World, i: nat): World
    requires i in w.reqs && w.pool.count > 0
  {
    SetTicket(w, i, w.reqs[i].ticket.(worker := Exited)).(pool := Release(w.pool, i))
  }

  function ApplyBeginWrite(w: World, i: nat, seen: bool, late: bool): World
    requires i in w.reqs
  {
    var (st, r) := BeginWriteLocked(w.st, w.cap.st, w.cap.generation, i, seen, late);
    if r.Ok? then w.(st := st, reqs := w.reqs[i := w.reqs[i].(writes := w.reqs[i].writes + 1)]) else w
  }

  function ApplyCallback(w: World, i: nat, result: Answer, seen: bool): World
    requires i in w.reqs
  {
    var (st, a) := TakeLocked(w.st, i);
    var r := w.reqs[i].(native := false);
    var r' := if a.Some? then r.(completion := Taken(a.value, w.st.closed || !seen, result)) else r;
    w.(st := st, reqs := w.reqs[i := r'])
  }

  function ApplyFinishTimer(w: World, i: nat): World
    requires i in w.reqs && w.reqs[i].completion.Taken?
  {
    var r := w.reqs[i];
    var c := r.completion;
    w.(reqs := w.reqs[i := r.(completion := TimerFinished(c.a, c.sawClosed, c.result), ticket := Disarm(r.ticket))])
  }

  function ReplyOf(w: World, i: nat, seen: bool, late: bool): Answer
    requires i in w.reqs && w.reqs[i].completion.TimerFinished?
  {
    var c := w.reqs[i].completion;
    AnswerFor(c.a, c.sawClosed, late, Capture.LeaseLocked(w.cap.st, w.cap.generation, c.a.token, seen), c.result)
  }

  function ApplyReply(w: World, i: nat, seen: bool, late: bool): World
    requires i in w.reqs && w.reqs[i].completion.TimerFinished?
  {
    var r := w.reqs[i];
    w.(reqs := w.reqs[i := r.(completion := Answered, ticket := Issue(r.ticket, ReplyOf(w, i, seen, late)))])
  }

  /** A caller reads the active request, to act on it after unlocking. */
  function ApplySuspect(w: World): World
  {
    if w.st.active.Some? && w.st.active.value.id in w.reqs
    then var i := w.st.active.value.id; w.(reqs := w.reqs[i := w.reqs[i].(suspected := true)])
    else w
  }

  /** The second lock of `cancel_invalidated`: is the token still leasable? */
  function ApplyCheckSuspect(w: World, i: nat, seen: bool): World
    requires i in w.reqs
  {
    if Capture.LeaseLocked(w.cap.st, w.cap.generation, w.reqs[i].token, seen).Err?
    then w.(reqs := w.reqs[i := w.reqs[i].(doomed := true)])
    else w
  }

  function ApplyRead(w: World, reason: ClipboardError): World
  {
    if w.st.active.Some? && w.st.active.value.id in w.reqs
    then
      var i := w.st.active.value.id;
      w.(reqs := w.reqs[i := w.reqs[i].(cancels := w.reqs[i].cancels + {reason})])
    else w
  }

  function ApplyReadForToken(w: World, t: Token): World
  {
    if w.st.active.Some? && w.st.active.value.token == t then ApplyRead(w, Released) else w
  }

  /** The second section of `notify_closed`. */
  function ApplyNotifyClosed(w: World): World
  {
    if w.st.active.Some? && w.st.active.value.id in w.reqs
    then var i := w.st.active.value.id; SetTicket(w, i, Issue(Disarm(w.reqs[i].ticket), Err(Closed)))
    else w
  }

  function Report(r: Request, phase: Phase<Answer>, a: Answer): Request
  {
    r.(ticket := r.ticket.(phase := phase), reported := r.reported + [a])
  }

  /** `ClipboardRequest::poll` found the host inactive. */
  function ApplyPollRetired(w: World, i: nat): World
    requires i in w.reqs
  {
    w.(st := CloseSilentLocked(w.st), reqs := w.reqs[i := Report(w.reqs[i], Held, Err(Closed))])
  }

  /** `ClipboardRequest::poll` after `slot.poll` returned: a failure is reported as it is. */
  function ApplyPollSlot(w: World, i: nat): World
    requires i in w.reqs && w.reqs[i].ticket.slot.Some?
  {
    var r := w.reqs[i];
    var a := r.ticket.slot.value;
    var taken := r.(ticket := r.ticket.(slot := None, delivered := true));
    w.(reqs := w.reqs[i := if a.Err? then Report(taken, Held, a)
                           else taken.(ticket := taken.ticket.(phase := Validating(a)))])
  }

  /** What the host is told of a success: the verdict of one more lease of the token. */
  function Delivery(w: World, i: nat, seen: bool): Answer
    requires i in w.reqs
  {
    match Capture.LeaseLocked(w.cap.st, w.cap.generation, w.reqs[i].token, seen)
    case Ok(_) => Ok(())
    case Err(e) => Err(MapCaptureError(e))
  }

  function ApplyDeliver(w: World, i: nat, seen: bool): World
    requires i in w.reqs
  {
    w.(reqs := w.reqs[i := Report(w.reqs[i], Held, Delivery(w, i, seen))])
  }

  function ApplyDrop(w: World, i: nat): World
    requires i in w.reqs
  {
    var t := w.reqs[i].ticket;
    if t.delivered then SetTicket(w, i, t.(phase := Gone))
    else
      var v := w.(st := CancelLocked(w.st, i));
      SetTicket(v, i, t.(phase := Dropping, disarmed := t.disarmed || IsActive(w.st, i)))
  }

  function Apply(w: World, s: Step): World
    requires Enabled(w, s)
  {
    match s
    case OfCapture(c) => w.(cap := CP.Apply(w.cap, c))
    case Expire(i) => SetTicket(w, i, w.reqs[i].ticket.(expired := true))
    case Admit(t) => w.(admitted := w.admitted + {t})
    case Claim(t, seen) => ApplyClaim(w, t, seen)
    case ReserveTimer(i) => ApplyReserve(w, i)
    case StartDeadline(i, spawned) => ApplyStart(w, i, spawned)
    case Submit(i, accepted) => ApplySubmit(w, i, accepted)
    case Abort(i) => ApplyAbort(w, i)
    case HandOut(i) => SetTicket(w, i, w.reqs[i].ticket.(phase := Held))
    case WorkerWake(i) => SetTicket(w, i, Wake(w.reqs[i].ticket))
    case WorkerTimeout(i) => ApplyWorkerTimeout(w, i)
    case WorkerExit(i) => ApplyExit(w, i)
    case BeginWrite(i, seen, late) => ApplyBeginWrite(w, i, seen, late)
    case Callback(i, result, seen) => ApplyCallback(w, i, result, seen)
    case FinishTimer(i) => ApplyFinishTimer(w, i)
    case Reply(i, seen, late) => ApplyReply(w, i, seen, late)
    case Complete(i, o) => SetTicket(w, i, Settle(w.reqs[i].ticket, o))
    case Suspect => ApplySuspect(w)
    case CheckSuspect(i, seen) => ApplyCheckSuspect(w, i, seen)
    case CancelDoomed(i) => CancelRequest(w, i, Released)
    case ReadForNavigation => ApplyRead(w, Cancelled)
    case ReadForToken(t) => ApplyReadForToken(w, t)
    case Cancel(i, reason) => CancelRequest(w, i, reason)
    case CloseSilent => w.(st := CloseSilentLocked(w.st))
    case NotifyClosed => ApplyNotifyClosed(w)
    case PollRetired(i) => ApplyPollRetired(w, i)
    case PollTimeout(i) => TimeOut(w, i)
    case PollSlot(i) => ApplyPollSlot(w, i)
    case Deliver(i, seen) => ApplyDeliver(w, i, seen)
    case Drop(i) => ApplyDrop(w, i)
    case FreeSlot(i) => SetTicket(w, i, w.reqs[i].ticket.(phase := Gone))
  }

  predicate Valid(w: World, run: seq<Step>)
    decreases |run|
  {
    run == [] || (Enabled(w, run[0]) && Valid(Apply(w, run[0]), run[1..]))
  }

  function Exec(w: World, run: seq<Step>): World
    requires Valid(w, run)
    decreases |run|
  {
    if run == [] then w else Exec(Apply(w, run[0]), run[1..])
  }

  // ----- invariant -----

  ghost predicate AllFailures(os: seq<Answer>)
  {
    forall o :: o in os ==> o.Err?
  }

  /** `a` already carries a mark that rules out a successful answer. */
  predicate Marked(a: Active, closed: bool)
  {
    a.cancelled || a.timedOut || closed
  }

  /** No outcome was issued to the request yet, and it was not dropped. */
  predicate Undisputed(t: Ticket<Answer>)
  {
    t.issued == [] && !t.phase.Dropping? && !t.phase.Gone?
  }

  ghost predicate OutcomeInv(s: State, i: nat, r: Request)
  {
    var issued := r.ticket.issued;
    && (AllFailures(issued) || (|issued| == 1 && issued[0].Ok?))
    && (IsActive(s, i) ==>
          && s.active.value.token == r.token
          && r.completion.NotTaken?
          && AllFailures(issued)
          && (issued != [] ==> Marked(s.active.value, s.closed))
          && (Undisputed(r.ticket) ==> !Marked(s.active.value, false) || s.closed)
          && r.writes == (if s.active.value.writing then 1 else 0))
    && (r.completion.Taken? || r.completion.TimerFinished? ==>
          && r.completion.a.token == r.token
          && AllFailures(issued)
          && (issued != [] ==> Marked(r.completion.a, r.completion.sawClosed))
          && (Undisputed(r.ticket) ==> !Marked(r.completion.a, false) || r.completion.sawClosed))
    && r.writes <= 1
  }

  ghost predicate ArmedInv(s: State, holders: set<nat>, i: nat, r: Request)
  {
    var t := r.ticket;
    && (IsActive(s, i) <==> Unsubmitted(t.phase) || r.native)
    && (r.native ==> !Unsubmitted(t.phase))
    && (t.worker.Waiting? || t.worker.Firing? || t.worker.Done? ==> i in holders)
    && (t.worker.Exited? ==> i !in holders)
    && (t.phase.Claimed? <==> t.worker.Unstarted?)
    && (t.phase.Validating? ==> t.phase.answer.Ok?)
    && (t.worker.Firing? || (IsActive(s, i) && s.active.value.timedOut) ==> t.expired)
    && (!IsActive(s, i) ==> t.disarmed || r.completion.Taken?)
    && (IsActive(s, i) && s.active.value.cancelled && !s.closed ==> t.disarmed)
    && (t.disarmed ==> t.issued != [] || r.completion.TimerFinished? || t.phase.Dropping? || t.phase.Gone?)
    && (t.phase.Timed? || t.phase.Submitted? || t.phase.Held? ==>
          || t.issued != []
          || r.completion.Taken? || r.completion.TimerFinished?
          || (IsActive(s, i) && !t.disarmed && (t.worker.Waiting? || t.worker.Firing?)))
  }

  /** A success is reported only to a request whose outcome is the success. */
  ghost predicate ReportInv(issued: seq<Answer>, reported: seq<Answer>)
  {
    AllFailures(issued) ==> AllFailures(reported)
  }

  ghost predicate TokenInv(cap: CP.World, r: Request)
  {
    && CP.Minted(cap, r.token)
    && (r.doomed ==> !cap.hostActive || !CP.Backed(cap, r.token))
  }

  ghost predicate RequestInv(s: State, holders: set<nat>, i: nat, r: Request)
  {
    Ledger(r.ticket) && OutcomeInv(s, i, r) && ArmedInv(s, holders, i, r) && ReportInv(r.ticket.issued, r.reported)
  }

  ghost predicate Sound(w: World, i: nat)
    requires i in w.reqs
  {
    RequestInv(w.st, w.pool.holders, i, w.reqs[i]) && TokenInv(w.cap, w.reqs[i])
  }

  ghost predicate GlobalInv(w: World)
  {
    && CP.Inv(w.cap)
    && StateInv(w.st)
    && PoolInv(w.pool) && w.pool.loose == 0
    && (forall i :: i in w.reqs <==> 1 <= i <= w.st.nextId)
    && (forall i :: i in w.pool.holders ==> i in w.reqs)
    && (forall t :: t in w.admitted ==> CP.Minted(w.cap, t))
  }

  ghost predicate Inv(w: World)
  {
    GlobalInv(w) && forall i {:trigger Sound(w, i)} :: i in w.reqs ==> Sound(w, i)
  }
}
