/**
 What the capture protocol does for its callers: beginning, interrupting, delivering and
 dropping a request bring about exactly what they are for, from any state they meet.
 */
module CaptureService {
  import opened Common
  import opened Tickets
  import opened Capture
  import opened CaptureProtocol
  import opened CaptureInvariant

  lemma {:induction false} Prepend(w: World, a: Step, run: seq<Step>)
    requires Enabled(w, a) && Valid(Apply(w, a), run)
    ensures Valid(w, [a] + run) && Exec(w, [a] + run) == Exec(Apply(w, a), run)
  {
    assert ([a] + run)[1..] == run;
  }

  // ----- begin -----

  /** A request that `begin` has handed out and nobody has touched since. */
  predicate Fresh(w: World, i: nat, epoch: nat, options: Options)
  {
    && i in w.reqs && IsActive(w.st, i) && i in w.pool.holders
    && w.reqs[i] == Request(epoch, options, true, Opened().(phase := Held, worker := Waiting), [])
  }

  lemma {:induction false} ClaimedRequest(w: World, options: Options)
    requires Inv(w) && HasRoom(w.pool) && ClaimLocked(w.st, options).Ok?
    ensures Enabled(w, ReserveTimer) && Enabled(Apply(w, ReserveTimer), Claim(options))
    ensures var v := Apply(Apply(w, ReserveTimer), Claim(options));
            var i := w.st.nextId + 1;
            && i !in w.reqs && i in v.reqs && v.reqs[i] == Request(w.st.epoch, options, false, Opened(), [])
            && IsActive(v.st, i) && i in v.pool.holders && v.pool.count > 0
            && forall j :: j in w.reqs ==> j in v.reqs && v.reqs[j] == w.reqs[j]
  {
  }

  lemma {:induction false} OpenedRequest(w: World, i: nat)
    requires i in w.reqs && w.reqs[i].ticket.phase.Claimed? && i in w.pool.holders && w.pool.count > 0
    ensures Enabled(w, StartDeadline(i, true))
    ensures var u := Apply(w, StartDeadline(i, true));
            Enabled(u, Submit(i, true)) && Enabled(Apply(u, Submit(i, true)), HandOut(i))
    ensures var v := Apply(Apply(Apply(w, StartDeadline(i, true)), Submit(i, true)), HandOut(i));
            && v.st == w.st && v.pool == w.pool && v.reqs.Keys == w.reqs.Keys
            && v.reqs[i] == w.reqs[i].(native := true, ticket := w.reqs[i].ticket.(phase := Held, worker := Waiting))
            && forall j :: j in w.reqs && j != i ==> v.reqs[j] == w.reqs[j]
  {
    assert (w.reqs.Keys + {i}) == w.reqs.Keys;
  }

  /** `begin` succeeds whenever a deadline thread is free and the window admits a capture. */
  lemma {:induction false} BeginSucceeds(w: World, options: Options) returns (run: seq<Step>)
    requires Inv(w) && HasRoom(w.pool) && ClaimLocked(w.st, options).Ok?
    ensures Valid(w, run) && Fresh(Exec(w, run), w.st.nextId + 1, w.st.epoch, options)
    ensures forall j :: j in w.reqs ==> j in Exec(w, run).reqs && Exec(w, run).reqs[j] == w.reqs[j]
  {
    var i := w.st.nextId + 1;
    ClaimedRequest(w, options);
    var u := Apply(Apply(w, ReserveTimer), Claim(options));
    OpenedRequest(u, i);
    var a, b, c := StartDeadline(i, true), Submit(i, true), HandOut(i);
    run := [];
    Prepend(Apply(Apply(u, a), b), c, run);
    run := [c] + run;
    Prepend(Apply(u, a), b, run);
    run := [b] + run;
    Prepend(u, a, run);
    run := [a] + run;
    Prepend(Apply(w, ReserveTimer), Claim(options), run);
    run := [Claim(options)] + run;
    Prepend(w, ReserveTimer, run);
    run := [ReserveTimer] + run;
  }

  /** A `begin` that fails after its claim leaves nothing behind: no active request, no timer, no slot. */
  lemma {:induction false} FailedBeginCleansUp(w: World, i: nat)
    requires Inv(w) && i in w.reqs && w.reqs[i].ticket.phase.Timed?
    ensures Enabled(w, Submit(i, false)) && Enabled(Apply(w, Submit(i, false)), Abort(i))
    ensures var v := Apply(Apply(w, Submit(i, false)), Abort(i));
            v.st.active.None? && i in v.reqs && v.reqs[i].ticket.phase.Gone? && v.reqs[i].ticket.disarmed && !v.reqs[i].native
  {
    assert Sound(w, i);
  }

  /** A deadline thread that cannot be started gives its reservation back. */
  lemma {:induction false} UnstartedDeadlineCleansUp(w: World, i: nat)
    requires Inv(w) && Enabled(w, StartDeadline(i, false))
    ensures var u := Apply(w, StartDeadline(i, false));
            && u.pool.count == w.pool.count - 1 && i !in u.pool.holders && Enabled(u, Abort(i))
            && Apply(u, Abort(i)).st.active.None? && i in Apply(u, Abort(i)).reqs && Apply(u, Abort(i)).reqs[i].ticket.phase.Gone?
  {
    assert Sound(w, i);
  }

  /** A claim that is refused gives its reservation back and changes nothing else. */
  lemma {:induction false} RefusedClaimForfeits(w: World, options: Options)
    requires Inv(w) && w.pool.loose > 0 && ClaimLocked(w.st, options).Err?
    ensures var v := ApplyClaim(w, options);
            v.pool.count == w.pool.count - 1 && v.pool.loose == w.pool.loose - 1 && v == w.(pool := v.pool)
  {
  }

  // ----- interruption -----

  /** The outcome is on its way to request `i`, and its timer is finished. */
  predicate Told(w: World, v: World, i: nat, e: CaptureError)
  {
    && i in w.reqs && i in v.reqs && v.reqs[i].ticket.disarmed
    && (SlotAlive(w.reqs[i].ticket) ==>
          v.reqs[i].ticket.issued == w.reqs[i].ticket.issued + [Err(e)] && Err(e) in v.reqs[i].ticket.pending)
  }

  lemma {:induction false} InterruptTells(w: World, st: State, e: CaptureError, i: nat)
    requires IsActive(w.st, i) && i in w.reqs
    ensures Told(w, Interrupt(w, st, e), i, e)
  {
    IssueHolds(Disarm(w.reqs[i].ticket), e);
  }

  lemma {:induction false} IssueHolds(t: Ticket<Outcome>, e: CaptureError)
    ensures SlotAlive(t) ==> Issue(t, Err(e)).issued == t.issued + [Err(e)] && Err(e) in Issue(t, Err(e)).pending
  {
    var o: Outcome := Err(e);
    assert o in multiset{o};
  }

  /** A navigation installs its epoch on an unfinished document and tells the active request. */
  lemma {:induction false} NavigationTells(w: World, e: nat, i: nat)
    requires Enabled(w, Navigate(e))
    ensures var v := Apply(w, Navigate(e));
            && v.st == w.st.(epoch := e, finished := false, retained := None) && v.lastEpoch == e
            && (IsActive(w.st, i) && i in w.reqs ==> Told(w, v, i, Cancelled))
  {
    if IsActive(w.st, i) && i in w.reqs { InterruptTells(w, InvalidateLocked(w.st, e, false), Cancelled, i); }
  }

  /** A resize moves the revision by one and tells the active request; the last revision closes instead. */
  lemma {:induction false} ResizeTells(w: World, i: nat)
    ensures w.st.revision < 0xFFFF_FFFF_FFFF_FFFF ==>
              && Apply(w, Resize).st == w.st.(revision := w.st.revision + 1, retained := None)
              && (IsActive(w.st, i) && i in w.reqs ==> Told(w, Apply(w, Resize), i, Cancelled))
    ensures w.st.revision >= 0xFFFF_FFFF_FFFF_FFFF ==>
              Apply(w, Resize).st == w.st.(closed := true, finished := false, retained := None)
  {
    if IsActive(w.st, i) && i in w.reqs { InterruptTells(w, ViewportLocked(w.st), Cancelled, i); }
  }

  /** Retirement closes at once, and its notification tells the active request. */
  lemma {:induction false} RetirementTells(w: World, observed: nat, i: nat)
    requires Enabled(w, NotifyClosed(observed))
    ensures Apply(w, Close).st == w.st.(closed := true, finished := false, retained := None)
    ensures var v := Apply(w, NotifyClosed(observed));
            && v.st.closed && !v.st.finished && v.st.retained.None?
            && (IsActive(w.st, i) && i in w.reqs ==> Told(w, v, i, Closed))
  {
    if IsActive(w.st, i) && i in w.reqs {
      InterruptTells(w, InvalidateLocked(w.st, SaturatingSucc(observed), true), Closed, i);
    }
  }

  /** Nobody is timed out early: a mark, and a thread about to set one, mean the deadline has passed. */
  lemma {:induction false} NeverEarly(w: World, i: nat)
    requires Inv(w) && i in w.reqs
    ensures w.reqs[i].ticket.worker.Firing? || (IsActive(w.st, i) && w.st.active.value.timedOut) ==> w.reqs[i].ticket.expired
  {
    assert Sound(w, i);
  }

  /** The deadline thread wakes when its timer is finished, to leave, or at the deadline, to fire. */
  lemma {:induction false} ThreadWakes(w: World, i: nat)
    requires i in w.reqs
    ensures Enabled(w, WorkerWake(i)) <==>
            w.reqs[i].ticket.worker.Waiting? && (w.reqs[i].ticket.disarmed || w.reqs[i].ticket.expired)
    ensures Enabled(w, WorkerWake(i)) ==>
              && i in Apply(w, WorkerWake(i)).reqs
              && Apply(w, WorkerWake(i)).reqs[i].ticket.worker == if w.reqs[i].ticket.disarmed then Done else Firing
  {
  }

  /** A deadline that passes marks the active request and tells it, once by its thread or by a late poll. */
  lemma {:induction false} TimeoutTells(w: World, s: Step, i: nat)
    requires Inv(w) && Enabled(w, s) && (s == WorkerTimeout(i) || s == PollTimeout(i)) && IsActive(w.st, i)
    ensures var v := Apply(w, s);
            && IsActive(v.st, i) && v.st.active.value.timedOut && i in v.reqs
            && (SlotAlive(w.reqs[i].ticket) ==>
                  v.reqs[i].ticket.issued == w.reqs[i].ticket.issued + [Err(Timeout)] && Err(Timeout) in v.reqs[i].ticket.pending)
  {
    assert Sound(w, i);
    IssueHolds(w.reqs[i].ticket, Timeout);
  }

  // ----- the future -----

  /** A completion that finds the slot empty puts its outcome there; one that comes later changes nothing. */
  lemma {:induction false} CompletionFillsSlot(w: World, i: nat, o: Outcome)
    requires Enabled(w, Complete(i, o))
    ensures var v := Apply(w, Complete(i, o));
            && i in v.reqs && v.reqs[i].ticket.pending == w.reqs[i].ticket.pending - multiset{o}
            && v.reqs[i].ticket.slot == if w.reqs[i].ticket.slot.Some? then w.reqs[i].ticket.slot else Some(o)
  {
  }

  /** What is in the slot is taken out once; a failure is reported as it is, a success goes to its validation. */
  lemma {:induction false} PollTakes(w: World, i: nat)
    requires Inv(w) && i in w.reqs && w.reqs[i].ticket.phase.Held? && w.reqs[i].ticket.slot.Some?
    ensures var r, o := w.reqs[i], w.reqs[i].ticket.slot.value;
            var u := ApplyPollSlot(w, i);
            && i in u.reqs && u.st == w.st && u.reqs[i].ticket.delivered && u.reqs[i].ticket.slot.None?
            && (o.Err? ==> u.reqs[i].ticket.phase.Held? && u.reqs[i].reported == r.reported + [o])
            && (o.Ok? ==> u.reqs[i].ticket.phase == Validating(o) && u.reqs[i].reported == r.reported)
  {
    assert Sound(w, i);
    var o := w.reqs[i].ticket.slot.value;
    assert o in w.reqs[i].ticket.issued;
  }

  /** Validation reports its verdict and gives the request back to the host. */
  lemma {:induction false} ValidationReports(w: World, i: nat, seen: bool)
    requires i in w.reqs && w.reqs[i].ticket.phase.Validating? && w.reqs[i].ticket.phase.answer.Ok? && (w.hostActive ==> seen)
    ensures Enabled(w, Validate(i, seen))
    ensures var v := Apply(w, Validate(i, seen));
            && i in v.reqs && v.reqs[i].ticket.phase.Held?
            && v.reqs[i].reported == w.reqs[i].reported + [ValidateLocked(w.st, w.reqs[i].ticket.phase.answer.value, seen)]
  {
  }

  /** A poll that finds the host retired closes the window and says so. */
  lemma {:induction false} RetiredPollSaysClosed(w: World, i: nat)
    requires Enabled(w, PollRetired(i))
    ensures var v := Apply(w, PollRetired(i));
            && v.st == w.st.(closed := true, finished := false, retained := None)
            && i in v.reqs && v.reqs[i].reported == w.reqs[i].reported + [Err(Closed)] && v.reqs[i].ticket == w.reqs[i].ticket
  {
  }

  /** Dropping a request ends it; undelivered, it is marked, its timer finished and its bytes discarded. */
  lemma {:induction false} DropEnds(w: World, i: nat)
    requires Inv(w) && i in w.reqs && w.reqs[i].ticket.phase.Held?
    ensures var v := ApplyDrop(w, i);
            && i in v.reqs
            && (w.reqs[i].ticket.delivered ==> v.reqs[i].ticket.phase.Gone? && v.st == w.st)
            && (!w.reqs[i].ticket.delivered ==>
                  && v.reqs[i].ticket.phase.Dropping? && v.reqs[i].ticket.disarmed && !IsRetained(v.st, i)
                  && (IsActive(w.st, i) ==> IsActive(v.st, i) && v.st.active.value.abandoned))
  {
    assert Sound(w, i);
  }

  lemma {:induction false} DroppedSlotIsFreed(w: World, i: nat)
    requires i in w.reqs && w.reqs[i].ticket.phase.Dropping?
    ensures Enabled(w, FreeSlot(i))
    ensures i in Apply(w, FreeSlot(i)).reqs && Apply(w, FreeSlot(i)).reqs[i].ticket.phase.Gone?
  {
  }

  /** The native callback, case by case: why a result is not wanted any more. */
  lemma {:induction false} UnwantedResult(s: State, generation: nat, id: nat, epoch: nat,
                                          result: Result<Image, CaptureError>, alive: bool, seen: bool, late: bool)
    requires IsActive(s, id)
    ensures var a := s.active.value;
            var (t, o) := CompleteLocked(s, generation, id, epoch, result, alive, seen, late);
            && t.(retained := s.retained) == s.(active := None)
            && (s.closed || !seen ==> o == Some(Err(Closed)) && t.retained == s.retained)
            && (!s.closed && seen && (!s.finished || s.epoch != epoch || a.epoch != epoch || a.revision != s.revision || a.abandoned) ==>
                  o == Some(Err(Cancelled)) && t.retained == s.retained)
            && ((!s.closed && seen && s.finished && s.epoch == epoch == a.epoch && a.revision == s.revision
                 && !a.abandoned && (a.timedOut || late)) ==>
                  o == Some(Err(Timeout)) && t.retained == s.retained)
  {
  }

  /** The resource is the one retained, for the document and viewport shown now. */
  predicate Shown(s: State, id: nat, epoch: nat, revision: nat)
  {
    && s.retained.Some? && s.retained.value.id == id && s.retained.value.epoch == epoch && s.retained.value.revision == revision
    && s.finished && s.epoch == epoch && s.revision == revision
  }

  /** Leasing, the write guard, validation and reading, case by case, in any state at all. */
  lemma {:induction false} AskedExactly(s: State, generation: nat, t: Token, c: Content, offset: nat, seen: bool)
    ensures LeaseLocked(s, generation, t, seen) ==
            if !seen || s.closed then Err(Closed)
            else if t.generation == generation && Shown(s, t.id, t.epoch, t.revision) then Ok(s.retained.value.png)
            else Err(Released)
    ensures GuardLocked(s, generation, t, seen).Ok? <==> LeaseLocked(s, generation, t, seen).Ok?
    ensures GuardLocked(s, generation, t, seen).Err? ==>
              LeaseLocked(s, generation, t, seen) == Err(GuardLocked(s, generation, t, seen).error)
    ensures !seen || s.closed ==> ValidateLocked(s, c, seen) == Err(Closed)
    ensures seen && !s.closed ==>
              ValidateLocked(s, c, seen) ==
              if s.finished && s.epoch == c.epoch && s.retained.Some? && s.retained.value.id == c.id
                 && s.retained.value.epoch == c.epoch && s.retained.value.revision == c.revision
              then Ok(c) else Err(Cancelled)
    ensures ReadLocked(s, generation, c, offset, seen).Ok? <==>
            && seen && !s.closed && c.generation == generation && Shown(s, c.id, c.epoch, c.revision)
            && offset <= |s.retained.value.png|
  {
  }

  /** The host gives the PNG back: it is discarded exactly if the content names it. */
  lemma {:induction false} ReleaseExactly(s: State, generation: nat, c: Content, seen: bool)
    ensures var named := s.retained.Some? && c.generation == generation && c.id == s.retained.value.id
                         && c.epoch == s.retained.value.epoch && c.revision == s.retained.value.revision;
            var (t, r) := ReleaseLocked(s, generation, c, seen);
            && (!seen || s.closed ==> r == Err(Closed) && t == s)
            && (seen && !s.closed && !named ==> r == Err(Released) && t == s)
            && (seen && !s.closed && named ==> r.Ok? && t == s.(retained := None))
  {
  }
}
