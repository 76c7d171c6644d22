/**
 The capture protocol as a state machine: the mutex state, every request with its
 slot and deadline thread, and the native side. One step is one critical section,
 one `Slot::complete`, or one event of the environment; any step may follow any
 other whenever it is enabled, so a run is an arbitrary interleaving of threads.
 */
module CaptureProtocol {
  import opened Common
  import opened Tickets
  import opened Capture

  /**
   `options` are those given to `begin`; `native` holds from submission until the native
   callback; `reported` lists poll results.
   */
  datatype Request = Request(
    epoch: nat, options: Options, native: bool, ticket: Ticket<Outcome>, reported: seq<Outcome>)

  /** `lastEpoch` is the largest epoch a navigation supplied. */
  datatype World = World(
    hostActive: bool, generation: nat, lastEpoch: nat,
    st: State, pool: Pool, reqs: map<nat, Request>)

  function Init(generation: nat): World
  {
    World(true, generation, 0, INITIAL, Pool(0, 0, {}), map[])
  }

  datatype Step =
    // environment
    | Revoke
    | Expire(id: nat)
    | Navigate(epoch: nat)
    | DocumentFinished(epoch: nat, seen: bool)
    | Resize
    // begin
    | ReserveTimer
    | Claim(options: Options)
    | StartDeadline(id: nat, spawned: bool)
    | Submit(id: nat, accepted: bool)
    | Abort(id: nat)
    | HandOut(id: nat)
    // deadline thread
    | WorkerWake(id: nat)
    | WorkerTimeout(id: nat)
    | WorkerExit(id: nat)
    // native callback and slot completion
    | Callback(id: nat, result: Result<Image, CaptureError>, seen: bool, late: bool)
    | Complete(id: nat, outcome: Outcome)
    // retirement
    | Close
    | NotifyClosed(observed: nat)
    // the request future
    | PollRetired(id: nat)
    | PollTimeout(id: nat)
    | PollSlot(id: nat)
    | Validate(id: nat, seen: bool)
    | Drop(id: nat)
    | FreeSlot(id: nat)
    // the host gives the PNG back
    | ReleaseContent(content: Content, seen: bool)

  predicate Enabled(w: World, s: Step)
  {
    match s
    case Revoke => w.hostActive
    case Expire(i) => i in w.reqs
    case Navigate(e) => w.lastEpoch < e <= U64_MAX
    case DocumentFinished(_, seen) => w.hostActive ==> seen
    case Resize => true
    case ReserveTimer => HasRoom(w.pool)
    case Claim(_) => w.pool.loose > 0
    case StartDeadline(i, _) => i in w.reqs && w.reqs[i].ticket.phase.Claimed? && i in w.pool.holders && w.pool.count > 0
    case Submit(i, _) => i in w.reqs && w.reqs[i].ticket.phase.Timed?
    case Abort(i) => i in w.reqs && w.reqs[i].ticket.phase.Failed?
    case HandOut(i) => i in w.reqs && w.reqs[i].ticket.phase.Submitted?
    case WorkerWake(i) => i in w.reqs && CanWake(w.reqs[i].ticket)
    case WorkerTimeout(i) => i in w.reqs && w.reqs[i].ticket.worker.Firing?
    case WorkerExit(i) => i in w.reqs && w.reqs[i].ticket.worker.Done? && w.pool.count > 0
    case Callback(i, _, seen, late) =>
      i in w.reqs && w.reqs[i].native && (w.hostActive ==> seen) && (late ==> w.reqs[i].ticket.expired)
    case Complete(i, o) => i in w.reqs && o in w.reqs[i].ticket.pending
    case Close => true
    case NotifyClosed(observed) => observed <= U64_MAX
    case PollRetired(i) => i in w.reqs && w.reqs[i].ticket.phase.Held? && !w.hostActive
    case PollTimeout(i) => i in w.reqs && w.reqs[i].ticket.phase.Held? && w.reqs[i].ticket.expired
    case PollSlot(i) => i in w.reqs && w.reqs[i].ticket.phase.Held? && w.reqs[i].ticket.slot.Some?
    case Validate(i, seen) =>
      i in w.reqs && w.reqs[i].ticket.phase.Validating? && w.reqs[i].ticket.phase.answer.Ok? && (w.hostActive ==> seen)
    case Drop(i) => i in w.reqs && w.reqs[i].ticket.phase.Held?
    case FreeSlot(i) => i in w.reqs && w.reqs[i].ticket.phase.Dropping?
    case ReleaseContent(_, seen) => w.hostActive ==> seen
  }

  function SetTicket(w: World, i: nat, t: Ticket<Outcome>): World
    requires i in w.reqs
  {
    w.(reqs := w.reqs[i := w.reqs[i].(ticket := t)])
  }

  /** Install a new mutex state; the interrupted request, if any, is told `e` and disarmed. */
  function Interrupt(w: World, st: State, e: CaptureError): World
  {
    var v := w.(st := st);
    if w.st.active.Some? && w.st.active.value.id in w.reqs
    then var i := w.st.active.value.id; SetTicket(v, i, Issue(Disarm(v.reqs[i].ticket), Err(e)))
    else v
  }

  /** `timeout`, called by the deadline thread or by a late poll. */
  function TimeOut(w: World, i: nat): World
    requires i in w.reqs
  {
    var v := w.(st := TimeoutLocked(w.st, i, w.reqs[i].epoch));
    if TimeoutHits(w.st, i, w.reqs[i].epoch)
    then SetTicket(v, i, Issue(v.reqs[i].ticket, Err(Timeout)))
    else v
  }

  function Report(r: Request, phase: Phase<Outcome>, o: Outcome): Request
  {
    r.(ticket := r.ticket.(phase := phase), reported := r.reported + [o])
  }

  function ApplyClaim(w: World, options: Options): World
    requires w.pool.loose > 0
  {
    match ClaimLocked(w.st, options)
    case Err(_) => if w.pool.count > 0 then w.(pool := Forfeit(w.pool)) else w
    case Ok((st, i)) =>
      w.(st := st, pool := Attach(w.pool, i),
         reqs := w.reqs[i := Request(w.st.epoch, options, false, Opened(), [])])
  }

  /** `abort_unsubmitted`, after which `begin` returns its error and drops the slot. */
  function ApplyAbort(w: World, i: nat): World
    requires i in w.reqs
  {
    var v := w.(st := AbortLocked(w.st, i));
    var t := w.reqs[i].ticket;
    SetTicket(v, i, t.(phase := Gone, disarmed := t.disarmed || IsActive(w.st, i)))
  }

  function ApplyCallback(w: World, i: nat, result: Result<Image, CaptureError>, seen: bool, late: bool): World
    requires i in w.reqs
  {
    var r := w.reqs[i].(native := false);
    var (st, o) := CompleteLocked(w.st, w.generation, i, r.epoch, result, SlotAlive(r.ticket), seen, late);
    var t := match o case None => r.ticket case Some(o) => Issue(Disarm(r.ticket), o);
    w.(st := st, reqs := w.reqs[i := r.(ticket := t)])
  }

  /** `viewport_changed`: an exhausted revision counter closes without a completion. */
  function ApplyResize(w: World): World
  {
    if w.st.revision < U64_MAX then Interrupt(w, ViewportLocked(w.st), Cancelled)
    else w.(st := CloseLocked(w.st))
  }

  /** `CaptureRequest::poll` after `slot.poll` returned a result. */
  function ApplyPollSlot(w: World, i: nat): World
    requires i in w.reqs && w.reqs[i].ticket.slot.Some?
  {
    var r := w.reqs[i];
    var o := r.ticket.slot.value;
    var taken := r.(ticket := r.ticket.(slot := None, delivered := true));
    var r' :=
      if o.Err? then Report(taken, Held, o)
      else if o.value.epoch != r.epoch then Report(taken, Held, Err(Cancelled))
      else taken.(ticket := taken.ticket.(phase := Validating(o)));
    w.(reqs := w.reqs[i := r'])
  }

  function ApplyDrop(w: World, i: nat): World
    requires i in w.reqs
  {
    var t := w.reqs[i].ticket;
    if t.delivered then SetTicket(w, i, t.(phase := Gone))
    else
      var v := w.(st := AbandonLocked(w.st, i));
      SetTicket(v, i, t.(phase := Dropping, disarmed := t.disarmed || IsActive(w.st, i)))
  }

  function Apply(w: World, s: Step): World
    requires Enabled(w, s)
  {
    match s
    case Revoke => w.(hostActive := false)
    case Expire(i) => SetTicket(w, i, w.reqs[i].ticket.(expired := true))
    case Navigate(e) => Interrupt(w, InvalidateLocked(w.st, e, false), Cancelled).(lastEpoch := e)
    case DocumentFinished(e, seen) => w.(st := FinishedLocked(w.st, e, seen))
    case Resize => ApplyResize(w)
    case ReserveTimer => w.(pool := Reserve(w.pool))
    case Claim(options) => ApplyClaim(w, options)
    case StartDeadline(i, spawned) =>
      var t := w.reqs[i].ticket;
      if spawned then SetTicket(w, i, t.(phase := Timed, worker := Waiting))
      else SetTicket(w, i, t.(phase := Failed, worker := Exited)).(pool := Release(w.pool, i))
    case Submit(i, accepted) =>
      var r := w.reqs[i];
      if accepted
      then w.(reqs := w.reqs[i := r.(native := true, ticket := r.ticket.(phase := Submitted))])
      else SetTicket(w, i, r.ticket.(phase := Failed))
    case Abort(i) => ApplyAbort(w, i)
    case HandOut(i) => SetTicket(w, i, w.reqs[i].ticket.(phase := Held))
    case WorkerWake(i) => SetTicket(w, i, Wake(w.reqs[i].ticket))
    case WorkerTimeout(i) =>
      var v := TimeOut(w, i);
      SetTicket(v, i, v.reqs[i].ticket.(worker := Done))
    case WorkerExit(i) =>
      SetTicket(w, i, w.reqs[i].ticket.(worker := Exited)).(pool := Release(w.pool, i))
    case Callback(i, result, seen, late) => ApplyCallback(w, i, result, seen, late)
    case Complete(i, o) => SetTicket(w, i, Settle(w.reqs[i].ticket, o))
    case Close => w.(st := CloseLocked(w.st))
    case NotifyClosed(observed) => Interrupt(w, InvalidateLocked(w.st, SaturatingSucc(observed), true), Closed)
    case PollRetired(i) =>
      w.(st := CloseLocked(w.st), reqs := w.reqs[i := Report(w.reqs[i], Held, Err(Closed))])
    case PollTimeout(i) => TimeOut(w, i)
    case PollSlot(i) => ApplyPollSlot(w, i)
    case Validate(i, seen) =>
      var r := w.reqs[i];
      w.(reqs := w.reqs[i := Report(r, Held, ValidateLocked(w.st, r.ticket.phase.answer.value, seen))])
    case Drop(i) => ApplyDrop(w, i)
    case FreeSlot(i) => SetTicket(w, i, w.reqs[i].ticket.(phase := Gone))
    case ReleaseContent(c, seen) => w.(st := ReleaseLocked(w.st, w.generation, c, seen).0)
  }

  // ----- runs -----

  predicate Valid(w: World, run: seq<Step>)
    decreases |run|
  {
    run == [] || (Enabled(w, run[0]) && Valid(Apply(w, run[0]), run[1..]))
  }

  function Exec(w: World, run: seq<Step>): World
    requires Valid(w, run)
    decreases |run|
  {
    if run == [] then w else Exec(Apply(w, run[0]), run[1..])
  }

  // ----- invariant -----

  ghost predicate AllFailures(os: seq<Outcome>)
  {
    forall o :: o in os ==> o.Err?
  }

  /** One success and nothing else, for this very request. */
  ghost predicate OneSuccess(os: seq<Outcome>, generation: nat, i: nat, epoch: nat)
  {
    |os| == 1 && os[0].Ok? && os[0].value.generation == generation && os[0].value.id == i && os[0].value.epoch == epoch
  }

  /** Something already rules out a successful completion of `a`, for good. */
  predicate Spoiled(s: State, a: Active)
  {
    s.closed || s.epoch != a.epoch || s.revision != a.revision || a.abandoned || a.timedOut
  }

  /** The number that big-endian bytes stand for. */
  function Number(b: seq<byte>): nat
  {
    if b == [] then 0 else 0x100 * Number(b[..|b| - 1]) + b[|b| - 1] as nat
  }

  /** The content describes the PNG, and both are within the limits the request asked for. */
  predicate Describes(c: Content, png: seq<byte>, options: Options)
  {
    && c.pngBytes == |png| && 24 <= |png| <= options.maxPngBytes
    && png[..8] == [0x89, 0x50, 0x4E, 0x47, 0x0D, 0x0A, 0x1A, 0x0A]
    && Number(png[16..20]) == c.width && Number(png[20..24]) == c.height
    && 1 <= c.width <= options.maxWidth && 1 <= c.height <= options.maxHeight
    && c.width * c.height <= 1_920_000
  }

  /** What the outcomes issued to request `i` look like, by where the request is. */
  ghost predicate OutcomeInv(s: State, generation: nat, i: nat, r: Request)
  {
    var t := r.ticket;
    && (IsActive(s, i) ==>
          && s.active.value.epoch == r.epoch
          && s.active.value.options == r.options
          && AllFailures(t.issued)
          && (!s.closed && t.issued == [] && !t.phase.Dropping? && !t.phase.Gone? ==> !Spoiled(s, s.active.value))
          && (t.issued != [] || t.phase.Dropping? || t.phase.Gone? ==> Spoiled(s, s.active.value)))
    && (AllFailures(t.issued) || OneSuccess(t.issued, generation, i, r.epoch))
    && (t.phase.Validating? ==> t.phase.answer.Ok?)
    && (IsRetained(s, i) ==>
          && OneSuccess(t.issued, generation, i, r.epoch)
          && r.epoch == s.retained.value.epoch
          && t.issued[0].value.revision == s.retained.value.revision
          && Describes(t.issued[0].value, s.retained.value.png, r.options)
          && !t.phase.Dropping?
          && (t.phase.Gone? ==> t.delivered))
  }

  /** A failure reported while the bytes are still retained can only be a host that just retired. */
  ghost predicate ReportInv(s: State, hostActive: bool, i: nat, r: Request)
  {
    && (forall o :: o in r.reported && o.Err? && IsRetained(s, i) ==> o.error == Closed && !hostActive)
    && (r.reported != [] ==> r.ticket.issued != [] || s.closed)
  }

  /** The document, the viewport or the host has moved on: nobody waits for this one any more. */
  predicate Superfluous(s: State, a: Active)
  {
    !s.closed && (s.epoch != a.epoch || s.revision != a.revision || a.abandoned)
  }

  /** The native side and the deadline. */
  ghost predicate ArmedInv(s: State, holders: set<nat>, i: nat, r: Request)
  {
    var t := r.ticket;
    && (IsActive(s, i) <==> Unsubmitted(t.phase) || r.native)
    && (r.native ==> !Unsubmitted(t.phase))
    && (t.worker.Waiting? || t.worker.Firing? || t.worker.Done? ==> i in holders)
    && (t.worker.Exited? ==> i !in holders)
    && (t.phase.Claimed? <==> t.worker.Unstarted?)
    && (t.phase.Claimed? ==> i in holders)
    && (t.disarmed ==> t.issued != [] || t.phase.Dropping? || t.phase.Gone?)
    && (t.worker.Firing? || (IsActive(s, i) && s.active.value.timedOut) ==> t.expired)
    && (!IsActive(s, i) ==> t.disarmed)
    && (IsActive(s, i) && Superfluous(s, s.active.value) ==> t.disarmed)
    && (t.phase.Timed? || t.phase.Submitted? || t.phase.Held? ==>
          t.issued != [] || (IsActive(s, i) && !t.disarmed && (t.worker.Waiting? || t.worker.Firing?)))
  }

  ghost predicate RequestInv(s: State, hostActive: bool, generation: nat, holders: set<nat>, i: nat, r: Request)
  {
    && Ledger(r.ticket)
    && OutcomeInv(s, generation, i, r)
    && ReportInv(s, hostActive, i, r)
    && ArmedInv(s, holders, i, r)
  }

  ghost predicate Sound(w: World, i: nat)
    requires i in w.reqs
  {
    RequestInv(w.st, w.hostActive, w.generation, w.pool.holders, i, w.reqs[i])
  }

  ghost predicate GlobalInv(w: World)
  {
    && StateInv(w.st)
    && PoolInv(w.pool)
    && (!w.st.closed ==> w.st.epoch == w.lastEpoch)
    && (forall i :: i in w.reqs <==> 1 <= i <= w.st.nextId)
    && (forall i :: i in w.pool.holders ==> i in w.reqs)
  }

  ghost predicate Inv(w: World)
  {
    GlobalInv(w) && forall i {:trigger Sound(w, i)} :: i in w.reqs ==> Sound(w, i)
  }

  // ----- tokens -----

  /** `lease_png` succeeds for a caller that saw the host active. */
  predicate Backed(w: World, t: Token)
  {
    LeaseLocked(w.st, w.generation, t, true).Ok?
  }

  /** The token may exist: it came from another window, or from a capture that is no longer active. */
  predicate Minted(w: World, t: Token)
  {
    t.generation == w.generation ==> t.id in w.reqs && !IsActive(w.st, t.id)
  }
}
