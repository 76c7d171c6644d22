/** Every step of the capture protocol keeps its invariant. */
module CaptureInvariant {
  import opened Common
  import opened Tickets
  import opened Capture
  import opened CaptureProtocol

  // ----- one request at a time -----

  /** From `s` to `s'` request `i` stays where it is, though it may have been spoiled. */
  ghost predicate Stays(s: State, s': State, i: nat)
  {
    && (IsActive(s', i) <==> IsActive(s, i))
    && (IsActive(s, i) ==>
          && s'.active.value.epoch == s.active.value.epoch
          && s'.active.value.options == s.active.value.options
          && (Spoiled(s, s.active.value) ==> Spoiled(s', s'.active.value)))
    && (IsRetained(s', i) ==> s'.retained == s.retained)
    && (s.closed ==> s'.closed)
  }

  /** From `s` to `s'` nothing happened to request `i` itself, except that the window may have closed. */
  ghost predicate Undisturbed(s: State, s': State, i: nat)
  {
    && Stays(s, s', i)
    && (IsActive(s, i) ==>
          && (Spoiled(s', s'.active.value) ==> Spoiled(s, s.active.value) || s'.closed)
          && (Superfluous(s', s'.active.value) ==> Superfluous(s, s.active.value))
          && (s'.active.value.timedOut ==> s.active.value.timedOut))
  }

  lemma {:induction false} Bystander(s: State, s': State, h: bool, h': bool, generation: nat,
                  holders: set<nat>, holders': set<nat>, i: nat, r: Request)
    requires RequestInv(s, h, generation, holders, i, r)
    requires Undisturbed(s, s', i) && (h' ==> h) && (i in holders <==> i in holders')
    ensures RequestInv(s', h', generation, holders', i, r)
  {
  }

  lemma {:induction false} AppendFailure(os: seq<Outcome>, e: CaptureError)
    requires AllFailures(os)
    ensures AllFailures(os + [Err(e)])
  {
  }

  /** The active request is told of a failure that also spoils it. */
  lemma {:induction false} FailureIssued(s: State, s': State, h: bool, generation: nat,
                      holders: set<nat>, i: nat, r: Request, t: Ticket<Outcome>, e: CaptureError)
    requires RequestInv(s, h, generation, holders, i, r)
    requires t == r.ticket || t == Disarm(r.ticket)
    requires IsActive(s, i) && Stays(s, s', i) && Spoiled(s', s'.active.value)
    requires Superfluous(s', s'.active.value) ==> t.disarmed
    requires s'.active.value.timedOut ==> r.ticket.expired
    requires !IsRetained(s', i)
    ensures RequestInv(s', h, generation, holders, i, r.(ticket := Issue(t, Err(e))))
  {
    AppendFailure(r.ticket.issued, e);
    IssueKeepsLedger(t, Err(e));
  }

  lemma {:induction false} SettledRequest(s: State, h: bool, generation: nat, holders: set<nat>, i: nat, r: Request, o: Outcome)
    requires RequestInv(s, h, generation, holders, i, r) && o in r.ticket.pending
    ensures RequestInv(s, h, generation, holders, i, r.(ticket := Settle(r.ticket, o)))
  {
    SettleKeepsLedger(r.ticket, o);
  }

  lemma {:induction false} PollTakesFailure(s: State, h: bool, generation: nat, holders: set<nat>, i: nat, r: Request)
    requires RequestInv(s, h, generation, holders, i, r)
    requires r.ticket.phase.Held? && r.ticket.slot.Some? && r.ticket.slot.value.Err?
    ensures var taken := r.(ticket := r.ticket.(slot := None, delivered := true));
            RequestInv(s, h, generation, holders, i, Report(taken, Held, r.ticket.slot.value))
  {
    assert r.ticket.slot.value in r.ticket.issued;
    assert !IsRetained(s, i);
  }

  lemma {:induction false} PollTakesSuccess(s: State, h: bool, generation: nat, holders: set<nat>, i: nat, r: Request)
    requires RequestInv(s, h, generation, holders, i, r)
    requires r.ticket.phase.Held? && r.ticket.slot.Some? && r.ticket.slot.value.Ok?
    ensures r.ticket.slot.value.value.epoch == r.epoch
    ensures var t := r.ticket.(slot := None, delivered := true, phase := Validating(r.ticket.slot.value));
            RequestInv(s, h, generation, holders, i, r.(ticket := t))
  {
    assert r.ticket.slot.value in r.ticket.issued;
    assert !AllFailures(r.ticket.issued);
  }

  lemma {:induction false} RetiredReport(s: State, h: bool, generation: nat, holders: set<nat>, i: nat, r: Request)
    requires RequestInv(s, h, generation, holders, i, r) && r.ticket.phase.Held?
    requires s.retained.None? && s.closed
    ensures RequestInv(s, h, generation, holders, i, Report(r, Held, Err(Closed)))
  {
  }

  /** Validating a success: it can fail while the bytes stay only if the host has retired. */
  lemma {:induction false} ValidatedReport(s: State, h: bool, generation: nat, holders: set<nat>, i: nat, r: Request, seen: bool)
    requires StateInv(s) && RequestInv(s, h, generation, holders, i, r)
    requires r.ticket.phase.Validating? && (h ==> seen)
    ensures RequestInv(s, h, generation, holders, i, Report(r, Held, ValidateLocked(s, r.ticket.phase.answer.value, seen)))
  {
    var o := r.ticket.phase.answer;
    assert o in r.ticket.issued;
    if IsRetained(s, i) {
      assert o == r.ticket.issued[0];
    }
  }

  /** Dropping an undelivered request spoils it and discards its bytes. */
  lemma {:induction false} AbandonedRequest(s: State, h: bool, generation: nat, holders: set<nat>, i: nat, r: Request)
    requires RequestInv(s, h, generation, holders, i, r) && r.ticket.phase.Held? && !r.ticket.delivered
    requires StateInv(s)
    ensures var t := r.ticket.(phase := Dropping, disarmed := r.ticket.disarmed || IsActive(s, i));
            RequestInv(AbandonLocked(s, i), h, generation, holders, i, r.(ticket := t))
  {
  }

  lemma {:induction false} ForgottenRequest(s: State, h: bool, generation: nat, holders: set<nat>, i: nat, r: Request)
    requires RequestInv(s, h, generation, holders, i, r) && r.ticket.phase.Held? && r.ticket.delivered
    ensures RequestInv(s, h, generation, holders, i, r.(ticket := r.ticket.(phase := Gone)))
  {
    assert r.ticket.issued != [];
  }

  lemma {:induction false} CalledBackFailing(s: State, h: bool, generation: nat, holders: set<nat>, i: nat, r: Request, e: CaptureError)
    requires StateInv(s) && RequestInv(s, h, generation, holders, i, r) && r.native
    ensures RequestInv(s.(active := None), h, generation, holders, i,
                       r.(native := false, ticket := Issue(Disarm(r.ticket), Err(e))))
  {
    IssueKeepsLedger(Disarm(r.ticket), Err(e));
    AppendFailure(r.ticket.issued, e);
  }

  lemma {:induction false} NumberOfBigEndian(n: u32)
    ensures |BigEndian32(n)| == 4 && Number(BigEndian32(n)) == n
  {
    var b := BigEndian32(n);
    assert b[..3][..2][..1][..0] == [];
    assert b[..3] == [b[0], b[1], b[2]] && b[..3][..2] == [b[0], b[1]] && b[..3][..2][..1] == [b[0]];
    assert Number(b[..3][..2][..1]) == b[0] as nat;
    assert Number(b[..3][..2]) == n / 0x1_0000;
    assert Number(b[..3]) == n / 0x100;
  }

  lemma {:induction false} LowByte(q: nat, d: nat, n: nat)
    requires d < 0x100 && n == 0x100 * q + d
    ensures n / 0x100 == q && n % 0x100 == d
  {
  }

  lemma {:induction false} Quotients(n: nat)
    ensures n / 0x100 / 0x100 == n / 0x1_0000 && n / 0x100 / 0x100 / 0x100 == n / 0x100_0000
  {
  }

  lemma {:induction false} BigEndianOfNumber(b: seq<byte>, n: u32)
    requires |b| == 4 && Number(b) == n
    ensures b == BigEndian32(n)
  {
    assert b[..3] == [b[0], b[1], b[2]] && b[..3][..2] == [b[0], b[1]] && b[..3][..2][..1] == [b[0]];
    assert b[..3][..2][..1][..0] == [];
    assert Number(b[..3][..2][..1]) == b[0] as nat;
    LowByte(Number(b[..3]), b[3] as nat, n);
    LowByte(Number(b[..3][..2]), b[2] as nat, n / 0x100);
    LowByte(b[0] as nat, b[1] as nat, n / 0x100 / 0x100);
    Quotients(n);
  }

  /** What passes the checks is described truthfully. */
  lemma {:induction false} AcceptableIsDescribed(generation: nat, a: Active, epoch: nat, image: Image)
    requires Acceptable(a.options, image)
    ensures Describes(ContentFor(generation, a, epoch, image), image.png, a.options)
  {
    NumberOfBigEndian(image.width);
    NumberOfBigEndian(image.height);
    assert image.png[..8] == PNG_SIGNATURE;
  }

  lemma {:induction false} CalledBackRetaining(s: State, h: bool, generation: nat, holders: set<nat>, i: nat, r: Request, image: Image)
    requires StateInv(s) && RequestInv(s, h, generation, holders, i, r) && r.native
    requires !Spoiled(s, s.active.value) && Acceptable(s.active.value.options, image)
    ensures SlotAlive(r.ticket)
    ensures var a := s.active.value;
            var content := ContentFor(generation, a, r.epoch, image);
            var s' := s.(active := None, retained := Some(Retained(i, r.epoch, a.revision, image.png)));
            RequestInv(s', h, generation, holders, i,
                       r.(native := false, ticket := Issue(Disarm(r.ticket), Ok(content))))
  {
    var content := ContentFor(generation, s.active.value, r.epoch, image);
    AcceptableIsDescribed(generation, s.active.value, r.epoch, image);
    IssueKeepsLedger(Disarm(r.ticket), Ok(content));
    assert r.ticket.issued == [] && r.reported == [];
  }

  /** The native callback concerns no other request and keeps the state consistent. */
  lemma {:induction false} CalledBackElsewhere(s: State, generation: nat, i: nat, epoch: nat,
                   result: Result<Image, CaptureError>, alive: bool, seen: bool, late: bool)
    requires StateInv(s) && IsActive(s, i)
    ensures var (s', o) := CompleteLocked(s, generation, i, epoch, result, alive, seen, late);
            && o.Some? && StateInv(s')
            && s'.nextId == s.nextId && s'.epoch == s.epoch && s'.closed == s.closed
            && (forall j :: j != i ==> Undisturbed(s, s', j))
  {
  }

  /** A failure, or the one success, ends the request's native life. */
  lemma {:induction false} CalledBack(s: State, h: bool, generation: nat, holders: set<nat>, i: nat, r: Request,
                   result: Result<Image, CaptureError>, seen: bool, late: bool)
    requires StateInv(s) && RequestInv(s, h, generation, holders, i, r) && r.native
    ensures var (s', o) := CompleteLocked(s, generation, i, r.epoch, result, SlotAlive(r.ticket), seen, late);
            && o.Some? && StateInv(s')
            && s'.nextId == s.nextId && s'.epoch == s.epoch && s'.closed == s.closed
            && (forall j :: j != i ==> Undisturbed(s, s', j))
            && RequestInv(s', h, generation, holders, i,
                          r.(native := false, ticket := Issue(Disarm(r.ticket), o.value)))
  {
    var (s', o) := CompleteLocked(s, generation, i, r.epoch, result, SlotAlive(r.ticket), seen, late);
    CalledBackElsewhere(s, generation, i, r.epoch, result, SlotAlive(r.ticket), seen, late);
    if o.value.Err? {
      CalledBackFailing(s, h, generation, holders, i, r, o.value.error);
    } else {
      CalledBackRetaining(s, h, generation, holders, i, r, result.value);
    }
  }

  /** `st` follows `s` after a navigation, a resize or a retirement. */
  ghost predicate Superseded(s: State, st: State)
  {
    && st.active == s.active && st.nextId == s.nextId && st.retained.None?
    && (s.closed ==> st.closed)
    && (st.active.Some? ==> Spoiled(st, st.active.value))
  }

  // ----- whole steps -----

  lemma {:induction false} InitInv(generation: nat)
    ensures Inv(Init(generation))
  {
  }

  lemma {:induction false} InterruptedSound(w: World, st: State, e: CaptureError, i: nat)
    requires Inv(w) && StateInv(st) && Superseded(w.st, st) && i in w.reqs
    ensures i in Interrupt(w, st, e).reqs && Sound(Interrupt(w, st, e), i)
  {
    assert Sound(w, i);
    if IsActive(w.st, i) {
      FailureIssued(w.st, st, w.hostActive, w.generation, w.pool.holders, i, w.reqs[i], Disarm(w.reqs[i].ticket), e);
    } else {
      Bystander(w.st, st, w.hostActive, w.hostActive, w.generation, w.pool.holders, w.pool.holders, i, w.reqs[i]);
    }
  }

  lemma {:induction false} InterruptKeepsSound(w: World, st: State, e: CaptureError)
    requires Inv(w) && StateInv(st) && Superseded(w.st, st)
    ensures var v := Interrupt(w, st, e);
            && v.reqs.Keys == w.reqs.Keys && v.st == st
            && v.pool == w.pool && v.hostActive == w.hostActive && v.generation == w.generation
            && forall i :: i in v.reqs ==> Sound(v, i)
  {
    var v := Interrupt(w, st, e);
    assert v.reqs.Keys == w.reqs.Keys;
    forall i | i in v.reqs ensures Sound(v, i) { InterruptedSound(w, st, e, i); }
  }

  lemma {:induction false} BystandersSound(w: World, v: World, i: nat)
    requires Inv(w) && i in w.reqs && i in v.reqs && v.reqs[i] == w.reqs[i]
    requires Undisturbed(w.st, v.st, i) && (v.hostActive ==> w.hostActive)
    requires v.generation == w.generation && (i in w.pool.holders <==> i in v.pool.holders)
    ensures Sound(v, i)
  {
    assert Sound(w, i);
    Bystander(w.st, v.st, w.hostActive, v.hostActive, w.generation, w.pool.holders, v.pool.holders, i, w.reqs[i]);
  }

  lemma {:induction false} RevokeKeepsInv(w: World)
    requires Inv(w) && w.hostActive
    ensures Inv(Apply(w, Revoke))
  {
    var v := Apply(w, Revoke);
    forall i | i in v.reqs ensures Sound(v, i) { BystandersSound(w, v, i); }
  }

  lemma {:induction false} CloseKeepsInv(w: World)
    requires Inv(w)
    ensures Inv(Apply(w, Close))
  {
    var v := Apply(w, Close);
    forall i | i in v.reqs ensures Sound(v, i) { BystandersSound(w, v, i); }
  }

  lemma {:induction false} FinishedKeepsInv(w: World, epoch: nat, seen: bool)
    requires Inv(w) && Enabled(w, DocumentFinished(epoch, seen))
    ensures Inv(Apply(w, DocumentFinished(epoch, seen)))
  {
    var v := Apply(w, DocumentFinished(epoch, seen));
    forall i | i in v.reqs ensures Sound(v, i) { BystandersSound(w, v, i); }
  }

  lemma {:induction false} InterruptKeepsInv(w: World, st: State, e: CaptureError)
    requires Inv(w) && StateInv(st) && Superseded(w.st, st)
    requires !st.closed ==> st.epoch == w.lastEpoch
    ensures Inv(Interrupt(w, st, e))
  {
    InterruptKeepsSound(w, st, e);
  }

  lemma {:induction false} NavigateKeepsInv(w: World, e: nat)
    requires Inv(w) && Enabled(w, Navigate(e))
    ensures Inv(Apply(w, Navigate(e)))
  {
    var st := InvalidateLocked(w.st, e, false);
    InterruptKeepsSound(w, st, Cancelled);
    var u := Interrupt(w, st, Cancelled);
    var v := Apply(w, Navigate(e));
    forall i | i in v.reqs ensures Sound(v, i) { assert Sound(u, i); }
  }

  lemma {:induction false} NotifyClosedKeepsInv(w: World, observed: nat)
    requires Inv(w) && Enabled(w, NotifyClosed(observed))
    ensures Inv(Apply(w, NotifyClosed(observed)))
  {
    InterruptKeepsInv(w, InvalidateLocked(w.st, SaturatingSucc(observed), true), Closed);
  }

  lemma {:induction false} ResizeKeepsInv(w: World)
    requires Inv(w)
    ensures Inv(Apply(w, Resize))
  {
    if w.st.revision < U64_MAX {
      var st := ViewportLocked(w.st);
      assert StateInv(st) && Superseded(w.st, st);
      InterruptKeepsInv(w, st, Cancelled);
      assert ApplyResize(w) == Interrupt(w, st, Cancelled);
    } else {
      CloseKeepsInv(w);
      assert ApplyResize(w) == Apply(w, Close);
    }
    assert Inv(ApplyResize(w));
  }

  /** A step that rewrites request `i` and disturbs no other request. */
  lemma {:induction false} FocusedStep(w: World, v: World, i: nat, r: Request)
    requires Inv(w) && GlobalInv(v) && v.reqs == w.reqs[i := r]
    requires v.generation == w.generation && (v.hostActive ==> w.hostActive)
    requires forall j :: j in w.reqs && j != i ==>
               Undisturbed(w.st, v.st, j) && (j in w.pool.holders <==> j in v.pool.holders)
    requires RequestInv(v.st, v.hostActive, v.generation, v.pool.holders, i, r)
    ensures Inv(v)
  {
    forall j | j in v.reqs ensures Sound(v, j) {
      if j != i { BystandersSound(w, v, j); }
    }
  }

  /** Request `i` changes, the mutex state and the pool do not. */
  lemma {:induction false} RequestStep(w: World, i: nat, r: Request)
    requires Inv(w) && i in w.reqs
    requires RequestInv(w.st, w.hostActive, w.generation, w.pool.holders, i, r)
    ensures Inv(w.(reqs := w.reqs[i := r]))
  {
    FocusedStep(w, w.(reqs := w.reqs[i := r]), i, r);
  }

  /** Request `i` and the mutex state change. */
  lemma {:induction false} SectionStep(w: World, st: State, i: nat, r: Request)
    requires Inv(w) && i in w.reqs && StateInv(st) && st.nextId == w.st.nextId
    requires !st.closed ==> st.epoch == w.lastEpoch
    requires forall j :: j in w.reqs && j != i ==> Undisturbed(w.st, st, j)
    requires RequestInv(st, w.hostActive, w.generation, w.pool.holders, i, r)
    ensures Inv(w.(st := st, reqs := w.reqs[i := r]))
  {
    FocusedStep(w, w.(st := st, reqs := w.reqs[i := r]), i, r);
  }

  lemma {:induction false} ReserveKeepsInv(w: World)
    requires Inv(w) && HasRoom(w.pool)
    ensures Inv(w.(pool := Reserve(w.pool)))
  {
    PoolSteps(w.pool, 0);
    var v := w.(pool := Reserve(w.pool));
    forall i | i in v.reqs ensures Sound(v, i) { BystandersSound(w, v, i); }
  }

  lemma {:induction false} RefusedKeepsInv(w: World)
    requires Inv(w) && w.pool.loose > 0
    ensures w.pool.count > 0 && Inv(w.(pool := Forfeit(w.pool)))
  {
    PoolSteps(w.pool, 0);
    var v := w.(pool := Forfeit(w.pool));
    forall i | i in v.reqs ensures Sound(v, i) { BystandersSound(w, v, i); }
  }

  lemma {:induction false} AdmittedKeepsInv(w: World, options: Options)
    requires Inv(w) && w.pool.loose > 0 && ClaimLocked(w.st, options).Ok?
    ensures Inv(ApplyClaim(w, options))
  {
    var v := ApplyClaim(w, options);
    var (st, i) := ClaimLocked(w.st, options).value;
    assert i !in w.reqs;
    PoolSteps(w.pool, i);
    var r := Request(w.st.epoch, options, false, Opened(), []);
    assert RequestInv(st, v.hostActive, v.generation, v.pool.holders, i, r);
    FocusedStep(w, v, i, r);
  }

  lemma {:induction false} ClaimKeepsInv(w: World, options: Options)
    requires Inv(w) && w.pool.loose > 0
    ensures Inv(ApplyClaim(w, options))
  {
    if ClaimLocked(w.st, options).Ok? {
      AdmittedKeepsInv(w, options);
    } else {
      RefusedKeepsInv(w);
    }
  }

  lemma {:induction false} ExpireKeepsInv(w: World, i: nat)
    requires Inv(w) && i in w.reqs
    ensures Inv(SetTicket(w, i, w.reqs[i].ticket.(expired := true)))
  {
    assert Sound(w, i);
    RequestStep(w, i, w.reqs[i].(ticket := w.reqs[i].ticket.(expired := true)));
  }

  lemma {:induction false} SpawnedKeepsInv(w: World, i: nat)
    requires Inv(w) && i in w.reqs && w.reqs[i].ticket.phase.Claimed?
    ensures Inv(SetTicket(w, i, w.reqs[i].ticket.(phase := Timed, worker := Waiting)))
  {
    assert Sound(w, i);
    RequestStep(w, i, w.reqs[i].(ticket := w.reqs[i].ticket.(phase := Timed, worker := Waiting)));
  }

  /** The deadline thread of `i` ends (or never starts) and gives its reservation back. */
  lemma {:induction false} UnreservedKeepsInv(w: World, i: nat, t: Ticket<Outcome>)
    requires Inv(w) && i in w.reqs && i in w.pool.holders
    requires RequestInv(w.st, w.hostActive, w.generation, w.pool.holders - {i}, i, w.reqs[i].(ticket := t))
    ensures w.pool.count > 0 && Inv(SetTicket(w, i, t).(pool := Release(w.pool, i)))
  {
    PoolSteps(w.pool, i);
    var v := SetTicket(w, i, t).(pool := Release(w.pool, i));
    FocusedStep(w, v, i, w.reqs[i].(ticket := t));
  }

  lemma {:induction false} NotSpawnedKeepsInv(w: World, i: nat)
    requires Inv(w) && i in w.reqs && w.reqs[i].ticket.phase.Claimed?
    ensures w.pool.count > 0 && Inv(SetTicket(w, i, w.reqs[i].ticket.(phase := Failed, worker := Exited)).(pool := Release(w.pool, i)))
  {
    assert Sound(w, i);
    UnreservedKeepsInv(w, i, w.reqs[i].ticket.(phase := Failed, worker := Exited));
  }

  lemma {:induction false} ExitKeepsInv(w: World, i: nat)
    requires Inv(w) && i in w.reqs && w.reqs[i].ticket.worker.Done?
    ensures w.pool.count > 0 && Inv(SetTicket(w, i, w.reqs[i].ticket.(worker := Exited)).(pool := Release(w.pool, i)))
  {
    assert Sound(w, i);
    UnreservedKeepsInv(w, i, w.reqs[i].ticket.(worker := Exited));
  }

  lemma {:induction false} SubmittedKeepsInv(w: World, i: nat)
    requires Inv(w) && i in w.reqs && w.reqs[i].ticket.phase.Timed?
    ensures Inv(w.(reqs := w.reqs[i := w.reqs[i].(native := true, ticket := w.reqs[i].ticket.(phase := Submitted))]))
  {
    assert Sound(w, i);
    RequestStep(w, i, w.reqs[i].(native := true, ticket := w.reqs[i].ticket.(phase := Submitted)));
  }

  lemma {:induction false} NotSubmittedKeepsInv(w: World, i: nat)
    requires Inv(w) && i in w.reqs && w.reqs[i].ticket.phase.Timed?
    ensures Inv(SetTicket(w, i, w.reqs[i].ticket.(phase := Failed)))
  {
    assert Sound(w, i);
    RequestStep(w, i, w.reqs[i].(ticket := w.reqs[i].ticket.(phase := Failed)));
  }

  lemma {:induction false} AbortKeepsInv(w: World, i: nat)
    requires Inv(w) && i in w.reqs && w.reqs[i].ticket.phase.Failed?
    ensures Inv(ApplyAbort(w, i))
  {
    assert Sound(w, i);
    SectionStep(w, AbortLocked(w.st, i), i, ApplyAbort(w, i).reqs[i]);
  }

  lemma {:induction false} HandOutKeepsInv(w: World, i: nat)
    requires Inv(w) && i in w.reqs && w.reqs[i].ticket.phase.Submitted?
    ensures Inv(SetTicket(w, i, w.reqs[i].ticket.(phase := Held)))
  {
    assert Sound(w, i);
    RequestStep(w, i, w.reqs[i].(ticket := w.reqs[i].ticket.(phase := Held)));
  }

  lemma {:induction false} WakeKeepsInv(w: World, i: nat)
    requires Inv(w) && i in w.reqs && CanWake(w.reqs[i].ticket)
    ensures Inv(SetTicket(w, i, Wake(w.reqs[i].ticket)))
  {
    assert Sound(w, i);
    RequestStep(w, i, w.reqs[i].(ticket := Wake(w.reqs[i].ticket)));
  }

  lemma {:induction false} TimeOutKeepsInv(w: World, i: nat)
    requires Inv(w) && i in w.reqs && w.reqs[i].ticket.expired
    ensures Inv(TimeOut(w, i))
  {
    assert Sound(w, i);
    var r := w.reqs[i];
    if TimeoutHits(w.st, i, r.epoch) {
      var st := TimeoutLocked(w.st, i, r.epoch);
      FailureIssued(w.st, st, w.hostActive, w.generation, w.pool.holders, i, r, r.ticket, Timeout);
      SectionStep(w, st, i, r.(ticket := Issue(r.ticket, Err(Timeout))));
    }
  }

  /** After `timeout` returned, the deadline thread has nothing left to do. */
  lemma {:induction false} FiredKeepsInv(w: World, i: nat)
    requires Inv(w) && i in w.reqs && w.reqs[i].ticket.worker.Firing?
    requires IsActive(w.st, i) ==> w.reqs[i].ticket.issued != [] || w.reqs[i].ticket.phase.Gone?
    ensures Inv(SetTicket(w, i, w.reqs[i].ticket.(worker := Done)))
  {
    assert Sound(w, i);
    RequestStep(w, i, w.reqs[i].(ticket := w.reqs[i].ticket.(worker := Done)));
  }

  lemma {:induction false} WorkerTimeoutKeepsInv(w: World, i: nat)
    requires Inv(w) && i in w.reqs && w.reqs[i].ticket.worker.Firing?
    ensures var v := TimeOut(w, i); Inv(SetTicket(v, i, v.reqs[i].ticket.(worker := Done)))
  {
    assert Sound(w, i);
    TimeOutKeepsInv(w, i);
    var v := TimeOut(w, i);
    assert IsActive(w.st, i) ==> TimeoutHits(w.st, i, w.reqs[i].epoch);
    FiredKeepsInv(v, i);
  }

  lemma {:induction false} CompleteKeepsInv(w: World, i: nat, o: Outcome)
    requires Inv(w) && i in w.reqs && o in w.reqs[i].ticket.pending
    ensures Inv(SetTicket(w, i, Settle(w.reqs[i].ticket, o)))
  {
    assert Sound(w, i);
    SettledRequest(w.st, w.hostActive, w.generation, w.pool.holders, i, w.reqs[i], o);
    RequestStep(w, i, w.reqs[i].(ticket := Settle(w.reqs[i].ticket, o)));
  }

  lemma {:induction false} PollRetiredKeepsInv(w: World, i: nat)
    requires Inv(w) && i in w.reqs && w.reqs[i].ticket.phase.Held?
    ensures Inv(w.(st := CloseLocked(w.st), reqs := w.reqs[i := Report(w.reqs[i], Held, Err(Closed))]))
  {
    assert Sound(w, i);
    var st := CloseLocked(w.st);
    Bystander(w.st, st, w.hostActive, w.hostActive, w.generation, w.pool.holders, w.pool.holders, i, w.reqs[i]);
    RetiredReport(st, w.hostActive, w.generation, w.pool.holders, i, w.reqs[i]);
    SectionStep(w, st, i, Report(w.reqs[i], Held, Err(Closed)));
  }

  lemma {:induction false} PollSlotKeepsInv(w: World, i: nat)
    requires Inv(w) && i in w.reqs && w.reqs[i].ticket.phase.Held? && w.reqs[i].ticket.slot.Some?
    ensures Inv(ApplyPollSlot(w, i))
  {
    assert Sound(w, i);
    if w.reqs[i].ticket.slot.value.Err? {
      PollTakesFailure(w.st, w.hostActive, w.generation, w.pool.holders, i, w.reqs[i]);
    } else {
      PollTakesSuccess(w.st, w.hostActive, w.generation, w.pool.holders, i, w.reqs[i]);
    }
    RequestStep(w, i, ApplyPollSlot(w, i).reqs[i]);
  }

  lemma {:induction false} ValidateKeepsInv(w: World, i: nat, seen: bool)
    requires Inv(w) && i in w.reqs && w.reqs[i].ticket.phase.Validating? && w.reqs[i].ticket.phase.answer.Ok? && (w.hostActive ==> seen)
    ensures Inv(w.(reqs := w.reqs[i := Report(w.reqs[i], Held, ValidateLocked(w.st, w.reqs[i].ticket.phase.answer.value, seen))]))
  {
    assert Sound(w, i);
    ValidatedReport(w.st, w.hostActive, w.generation, w.pool.holders, i, w.reqs[i], seen);
    RequestStep(w, i, Report(w.reqs[i], Held, ValidateLocked(w.st, w.reqs[i].ticket.phase.answer.value, seen)));
  }

  lemma {:induction false} DropKeepsInv(w: World, i: nat)
    requires Inv(w) && i in w.reqs && w.reqs[i].ticket.phase.Held?
    ensures Inv(ApplyDrop(w, i))
  {
    assert Sound(w, i);
    if w.reqs[i].ticket.delivered {
      ForgottenRequest(w.st, w.hostActive, w.generation, w.pool.holders, i, w.reqs[i]);
      RequestStep(w, i, ApplyDrop(w, i).reqs[i]);
    } else {
      AbandonedRequest(w.st, w.hostActive, w.generation, w.pool.holders, i, w.reqs[i]);
      SectionStep(w, AbandonLocked(w.st, i), i, ApplyDrop(w, i).reqs[i]);
    }
  }

  lemma {:induction false} FreeSlotKeepsInv(w: World, i: nat)
    requires Inv(w) && i in w.reqs && w.reqs[i].ticket.phase.Dropping?
    ensures Inv(SetTicket(w, i, w.reqs[i].ticket.(phase := Gone)))
  {
    assert Sound(w, i);
    RequestStep(w, i, w.reqs[i].(ticket := w.reqs[i].ticket.(phase := Gone)));
  }

  lemma {:induction false} CallbackKeepsInv(w: World, i: nat, result: Result<Image, CaptureError>, seen: bool, late: bool)
    requires Inv(w) && i in w.reqs && w.reqs[i].native
    ensures Inv(ApplyCallback(w, i, result, seen, late))
  {
    assert Sound(w, i);
    CalledBack(w.st, w.hostActive, w.generation, w.pool.holders, i, w.reqs[i], result, seen, late);
    var v := ApplyCallback(w, i, result, seen, late);
    SectionStep(w, v.st, i, v.reqs[i]);
  }

  lemma {:induction false} ReleaseKeepsInv(w: World, c: Content, seen: bool)
    requires Inv(w)
    ensures Inv(w.(st := ReleaseLocked(w.st, w.generation, c, seen).0))
  {
    var v := w.(st := ReleaseLocked(w.st, w.generation, c, seen).0);
    forall i | i in v.reqs ensures Sound(v, i) { BystandersSound(w, v, i); }
  }

  /** Every step keeps the invariant. */
  lemma {:induction false} StepKeepsInv(w: World, s: Step)
    requires Inv(w) && Enabled(w, s)
    ensures Inv(Apply(w, s))
  {
    match s
    case Revoke => RevokeKeepsInv(w);
    case Expire(i) => ExpireKeepsInv(w, i);
    case Navigate(e) => NavigateKeepsInv(w, e);
    case DocumentFinished(e, seen) => FinishedKeepsInv(w, e, seen);
    case Resize => ResizeKeepsInv(w);
    case ReserveTimer => ReserveKeepsInv(w);
    case Claim(options) => ClaimKeepsInv(w, options);
    case StartDeadline(i, spawned) => if spawned { SpawnedKeepsInv(w, i); } else { NotSpawnedKeepsInv(w, i); }
    case Submit(i, accepted) => if accepted { SubmittedKeepsInv(w, i); } else { NotSubmittedKeepsInv(w, i); }
    case Abort(i) => AbortKeepsInv(w, i);
    case HandOut(i) => HandOutKeepsInv(w, i);
    case WorkerWake(i) => WakeKeepsInv(w, i);
    case WorkerTimeout(i) => WorkerTimeoutKeepsInv(w, i);
    case WorkerExit(i) => ExitKeepsInv(w, i);
    case Callback(i, result, seen, late) => CallbackKeepsInv(w, i, result, seen, late);
    case Complete(i, o) => CompleteKeepsInv(w, i, o);
    case Close => CloseKeepsInv(w);
    case NotifyClosed(observed) => NotifyClosedKeepsInv(w, observed);
    case PollRetired(i) => PollRetiredKeepsInv(w, i);
    case PollTimeout(i) => TimeOutKeepsInv(w, i);
    case PollSlot(i) => PollSlotKeepsInv(w, i);
    case Validate(i, seen) => ValidateKeepsInv(w, i, seen);
    case Drop(i) => DropKeepsInv(w, i);
    case FreeSlot(i) => FreeSlotKeepsInv(w, i);
    case ReleaseContent(c, seen) => ReleaseKeepsInv(w, c, seen);
  }
}
