/** What the capture protocol guarantees in every interleaving. */
module CaptureTheorems {
  import opened Common
  import opened Tickets
  import opened Capture
  import opened CaptureProtocol
  import opened CaptureInvariant
  import opened CaptureGrowth

  ghost predicate Reachable(w: World)
  {
    exists generation, run :: Valid(Init(generation), run) && w == Exec(Init(generation), run)
  }

  lemma {:induction false} RunKeepsInv(w: World, run: seq<Step>)
    requires Inv(w) && Valid(w, run)
    ensures Inv(Exec(w, run))
    decreases |run|
  {
    if run != [] {
      StepKeepsInv(w, run[0]);
      RunKeepsInv(Apply(w, run[0]), run[1..]);
    }
  }

  lemma {:induction false} ReachableInv(w: World)
    requires Reachable(w)
    ensures Inv(w)
  {
    var generation, run :| Valid(Init(generation), run) && w == Exec(Init(generation), run);
    InitInv(generation);
    RunKeepsInv(Init(generation), run);
  }

  // ----- outcomes and retained bytes -----

  /**
   In every reachable state, the outcomes any thread ever undertook to record for a
   request are either failures only, or one single success and nothing else.
   */
  lemma {:induction false} OutcomesExclusive(w: World, i: nat)
    requires Reachable(w) && i in w.reqs
    ensures var issued := w.reqs[i].ticket.issued;
            || (forall o :: o in issued ==> o.Err?)
            || (|issued| == 1 && issued[0].Ok? && issued[0].value.id == i)
  {
    ReachableInv(w);
    assert Sound(w, i);
  }

  /**
   A PNG is retained under id `i` only while request `i` has exactly one outcome,
   the success describing that PNG, which is still on its way, waiting in the slot,
   or was taken by the host; and the request was not dropped undelivered.
   */
  lemma {:induction false} RetainedMeansSuccess(w: World, i: nat)
    requires Reachable(w) && IsRetained(w.st, i)
    ensures i in w.reqs
    ensures var t := w.reqs[i].ticket;
            && |t.issued| == 1 && t.issued[0].Ok?
            && TokenOf(t.issued[0].value) == Token(w.generation, i, w.st.epoch, w.st.revision)
            && Describes(t.issued[0].value, w.st.retained.value.png, w.reqs[i].options)
            && (t.issued[0] in t.pending || t.slot == Some(t.issued[0]) || t.delivered)
            && !t.phase.Dropping? && (t.phase.Gone? ==> t.delivered)
  {
    ReachableInv(w);
    assert Sound(w, i);
    var t := w.reqs[i].ticket;
    if t.pending != multiset{} {
      var o :| o in t.pending;
      assert o == t.issued[0];
    }
  }

  /**
   No failure is in flight, recorded or reported for a request whose bytes are
   retained, except that a delivery may already have answered `Closed` because the
   host has retired.
   */
  lemma {:induction false} NoFailureWhileRetained(w: World, i: nat, o: Outcome)
    requires Reachable(w) && IsRetained(w.st, i) && i in w.reqs && o.Err?
    ensures o !in w.reqs[i].ticket.issued && o !in w.reqs[i].ticket.pending && w.reqs[i].ticket.slot != Some(o)
    ensures o in w.reqs[i].reported ==> o.error == Closed && !w.hostActive
  {
    ReachableInv(w);
    assert Sound(w, i);
  }

  /**
   The exact verdict of a delivery: it is a success exactly when the bytes are still
   retained and the host was seen active, so it leaves retained bytes behind a
   failure exactly when the host was seen inactive before `close` ran.
   */
  lemma {:induction false} DeliveryVerdict(w: World, i: nat, seen: bool)
    requires Reachable(w) && Enabled(w, Validate(i, seen))
    ensures var report := ValidateLocked(w.st, w.reqs[i].ticket.phase.answer.value, seen);
            && (report.Ok? <==> IsRetained(w.st, i) && seen)
            && (report.Err? && IsRetained(w.st, i) <==> IsRetained(w.st, i) && !seen)
  {
    ReachableInv(w);
    assert Sound(w, i);
    var o := w.reqs[i].ticket.phase.answer;
    assert o in w.reqs[i].ticket.issued;
  }

  lemma {:induction false} ExecAppend(w: World, run: seq<Step>, s: Step)
    requires Valid(w, run) && Enabled(Exec(w, run), s)
    ensures Valid(w, run + [s]) && Exec(w, run + [s]) == Apply(Exec(w, run), s)
    decreases |run|
  {
    if run == [] {
      assert run + [s] == [s];
      assert [s][1..] == [];
    } else {
      ExecAppend(Apply(w, run[0]), run[1..], s);
      assert (run + [s])[1..] == run[1..] + [s];
    }
  }

  lemma {:induction false} StepReachable(w: World, s: Step)
    requires Reachable(w) && Enabled(w, s)
    ensures Reachable(Apply(w, s))
  {
    var generation, run :| Valid(Init(generation), run) && w == Exec(Init(generation), run);
    ExecAppend(Init(generation), run, s);
  }

  lemma {:induction false} RunReachable(w: World, run: seq<Step>)
    requires Reachable(w) && Valid(w, run)
    ensures Reachable(Exec(w, run))
    decreases |run|
  {
    if run != [] {
      StepReachable(w, run[0]);
      RunReachable(Apply(w, run[0]), run[1..]);
    }
  }

  /** A failure issued to request `i` is final: its bytes are never retained afterwards. */
  lemma {:induction false} FailureIsFinal(w: World, run: seq<Step>, i: nat, o: Outcome)
    requires Reachable(w) && Valid(w, run) && i in w.reqs && o in w.reqs[i].ticket.issued && o.Err?
    ensures !IsRetained(Exec(w, run).st, i)
  {
    ReachableInv(w);
    RunGrows(w, run);
    var v := Exec(w, run);
    assert Kept(w, v, i) && Sound(v, i);
  }

  const SAMPLE: Image := Image(1, 1, PNG_SIGNATURE + [0, 0, 0, 0, 0, 0, 0, 0] + [0, 0, 0, 1] + [0, 0, 0, 1])
  const SAMPLE_OPTIONS: Options := Options(MAX_WIDTH, MAX_HEIGHT, MAX_PNG_BYTES)

  lemma {:induction false} SampleIsAcceptable()
    ensures Acceptable(SAMPLE_OPTIONS, SAMPLE)
  {
    assert BigEndian32(1) == [0, 0, 0, 1];
    assert SAMPLE.png[16..20] == [0, 0, 0, 1];
    assert SAMPLE.png[20..24] == [0, 0, 0, 1];
  }

  /** A run that has a finished document and a reserved deadline thread. */
  lemma {:induction false} SampleReady() returns (w: World)
    ensures Reachable(w) && w.hostActive && w.generation == 7
    ensures w.st == State(1, 0, true, false, 0, None, None)
    ensures w.pool == Pool(1, 1, {}) && w.reqs == map[]
  {
    w := Init(7);
    assert Valid(w, []) && Exec(w, []) == w;
    StepReachable(w, Navigate(1)); w := Apply(w, Navigate(1));
    StepReachable(w, DocumentFinished(1, true)); w := Apply(w, DocumentFinished(1, true));
    StepReachable(w, ReserveTimer); w := Apply(w, ReserveTimer);
  }

  /** A run whose first capture is submitted to the native side. */
  lemma {:induction false} SampleSubmitted() returns (w: World)
    ensures Reachable(w) && w.hostActive && w.generation == 7
    ensures w.st == State(1, 0, true, false, 1, Some(Active(1, 1, 0, SAMPLE_OPTIONS, false, false)), None)
    ensures 1 in w.reqs && w.reqs[1] == Request(1, SAMPLE_OPTIONS, true, Opened().(phase := Submitted, worker := Waiting), [])
  {
    w := SampleReady();
    StepReachable(w, Claim(SAMPLE_OPTIONS)); w := Apply(w, Claim(SAMPLE_OPTIONS));
    StepReachable(w, StartDeadline(1, true)); w := Apply(w, StartDeadline(1, true));
    StepReachable(w, Submit(1, true)); w := Apply(w, Submit(1, true));
  }

  /** The native callback of that run retains the image and sends the success on its way. */
  lemma {:induction false} SampleCalledBack() returns (w: World, c: Content)
    ensures Reachable(w) && w.hostActive && IsRetained(w.st, 1) && 1 in w.reqs
    ensures c.epoch == w.reqs[1].epoch && w.reqs[1].ticket.phase.Held?
    ensures Ok(c) in w.reqs[1].ticket.pending && w.reqs[1].ticket.slot.None?
  {
    w := SampleSubmitted();
    SampleIsAcceptable();
    c := ContentFor(7, w.st.active.value, 1, SAMPLE);
    StepReachable(w, HandOut(1)); w := Apply(w, HandOut(1));
    StepReachable(w, Callback(1, Ok(SAMPLE), true, false)); w := Apply(w, Callback(1, Ok(SAMPLE), true, false));
  }

  /** The host has taken the success from the slot and is about to validate it. */
  lemma {:induction false} SampleTaken() returns (w: World)
    ensures Reachable(w) && w.hostActive && IsRetained(w.st, 1) && 1 in w.reqs
    ensures Enabled(w.(hostActive := false), Validate(1, false))
  {
    var c;
    w, c := SampleCalledBack();
    StepReachable(w, Complete(1, Ok(c))); w := Apply(w, Complete(1, Ok(c)));
    StepReachable(w, PollSlot(1)); w := Apply(w, PollSlot(1));
  }

  /**
   The property fails as stated without the exception: a host that retires between
   `slot.poll` and `validate_delivery` is told `Closed` while the bytes stay retained.
   */
  lemma {:induction false} ClosedMayPrecedeDiscard() returns (w: World)
    ensures Reachable(w) && IsRetained(w.st, 1) && 1 in w.reqs && Err(Closed) in w.reqs[1].reported
  {
    w := SampleTaken();
    StepReachable(w, Revoke); w := Apply(w, Revoke);
    StepReachable(w, Validate(1, false)); w := Apply(w, Validate(1, false));
    assert w.reqs[1].reported[|w.reqs[1].reported| - 1] == Err(Closed);
  }

  // ----- exactly when -----

  /** Admission: exactly which windows accept a capture, what refuses it otherwise, and what is recorded. */
  lemma {:induction false} ClaimExactly(s: State, options: Options)
    ensures ClaimLocked(s, options).Ok? <==>
            !s.closed && s.finished && s.epoch != 0 && s.active.None? && s.nextId < 0xFFFF_FFFF_FFFF_FFFF
    ensures ClaimLocked(s, options).Ok? ==>
              var (t, id) := ClaimLocked(s, options).value;
              && id == s.nextId + 1 == t.nextId && t.retained.None? && IsActive(t, id)
              && t.active.value.epoch == s.epoch == t.epoch && t.active.value.revision == s.revision == t.revision
              && t.active.value.options == options && !t.active.value.abandoned && !t.active.value.timedOut
              && t.finished && !t.closed
    ensures s.closed ==> ClaimLocked(s, options) == Err(Closed)
    ensures !s.closed && (!s.finished || s.epoch == 0) ==> ClaimLocked(s, options) == Err(Unavailable)
    ensures !s.closed && s.finished && s.epoch != 0 && s.active.Some? ==> ClaimLocked(s, options) == Err(Busy)
    ensures !s.closed && s.finished && s.epoch != 0 && s.active.None? && s.nextId >= 0xFFFF_FFFF_FFFF_FFFF ==>
              ClaimLocked(s, options) == Err(Scheduler)
  {
  }

  /** A document is finished exactly when its own load event came while the window was open. */
  lemma {:induction false} FinishedExactly(s: State, epoch: nat, seen: bool)
    ensures FinishedLocked(s, epoch, seen).finished <==>
            s.finished || (seen && !s.closed && s.epoch == epoch && epoch != 0)
    ensures FinishedLocked(s, epoch, seen).(finished := s.finished) == s
  {
  }

  /** A timeout marks the request of that id and epoch, and nothing else in the state. */
  lemma {:induction false} TimeoutExactly(s: State, id: nat, epoch: nat)
    ensures s.active.Some? && s.active.value.id == id && s.active.value.epoch == epoch ==>
              TimeoutHits(s, id, epoch) && TimeoutLocked(s, id, epoch) == s.(active := Some(s.active.value.(timedOut := true)))
    ensures !(s.active.Some? && s.active.value.id == id && s.active.value.epoch == epoch) ==>
              !TimeoutHits(s, id, epoch) && TimeoutLocked(s, id, epoch) == s
  {
  }

  /** `current` says yes exactly when a completion at that moment would pass the native result on. */
  lemma {:induction false} CurrentExactly(w: World, i: nat, seen: bool, late: bool)
    requires Inv(w) && i in w.reqs && w.reqs[i].native
    ensures CurrentLocked(w.st, i, w.reqs[i].epoch, seen, late) <==>
            forall e, alive ::
              CompleteLocked(w.st, w.generation, i, w.reqs[i].epoch, Err(e), alive, seen, late).1 == Some(Err(e))
  {
    assert Sound(w, i);
    var r := CompleteLocked(w.st, w.generation, i, w.reqs[i].epoch, Err(Incomplete), true, seen, late).1;
    assert !CurrentLocked(w.st, i, w.reqs[i].epoch, seen, late) ==> r != Some(Err(Incomplete));
  }

  /** A read: exactly when it answers, how much, and which error otherwise. */
  lemma {:induction false} ReadExactly(s: State, generation: nat, c: Content, offset: nat, seen: bool)
    requires StateInv(s)
    ensures var live := s.retained.Some? && c.generation == generation && c.id == s.retained.value.id
                        && c.epoch == s.epoch && c.revision == s.revision;
            var r := ReadLocked(s, generation, c, offset, seen);
            && (!seen || s.closed ==> r == Err(Closed))
            && (seen && !s.closed && !live ==> r == Err(Released))
            && (seen && !s.closed && live && offset > |s.retained.value.png| ==> r == Err(InvalidOffset))
            && (seen && !s.closed && live && offset <= |s.retained.value.png| ==>
                  && r.Ok? && r.value.nextOffset == offset + |r.value.bytes|
                  && |r.value.bytes| == (if |s.retained.value.png| - offset < 20_480 then |s.retained.value.png| - offset else 20_480)
                  && r.value.bytes == s.retained.value.png[offset..r.value.nextOffset]
                  && (r.value.eof <==> r.value.nextOffset == |s.retained.value.png|))
  {
  }

  /** The outcome of a native callback that nothing has pre-empted. */
  function Expected(w: World, i: nat, result: Result<Image, CaptureError>, seen: bool, late: bool): Outcome
    requires i in w.reqs
  {
    if !seen then Err(Closed)
    else if late then Err(Timeout)
    else match result
      case Err(e) => Err(e)
      case Ok(image) =>
        var c := Content(w.generation, i, w.st.epoch, w.st.revision, image.width, image.height, |image.png|);
        if Describes(c, image.png, w.reqs[i].options) then Ok(c) else Err(TooLarge)
  }

  lemma {:induction false} DescribedIsAcceptable(generation: nat, a: Active, epoch: nat, image: Image)
    ensures Describes(ContentFor(generation, a, epoch, image), image.png, a.options) <==> Acceptable(a.options, image)
  {
    if Describes(ContentFor(generation, a, epoch, image), image.png, a.options) {
      BigEndianOfNumber(image.png[16..20], image.width);
      BigEndianOfNumber(image.png[20..24], image.height);
      assert PNG_SIGNATURE <= image.png;
    }
    if Acceptable(a.options, image) { AcceptableIsDescribed(generation, a, epoch, image); }
  }

  /**
   A capture that nothing has interrupted ends as its native side says: with no outcome
   issued, the request kept and the window open, the callback issues exactly the expected
   outcome, and retains exactly the native bytes if that is a success.
   */
  lemma {:induction false} UndisturbedCaptureEnds(w: World, i: nat, result: Result<Image, CaptureError>, seen: bool, late: bool)
    requires Reachable(w) && Enabled(w, Callback(i, result, seen, late)) && !w.st.closed
    requires w.reqs[i].ticket.issued == [] && !w.reqs[i].ticket.phase.Dropping? && !w.reqs[i].ticket.phase.Gone?
    ensures var v := ApplyCallback(w, i, result, seen, late);
            var o := Expected(w, i, result, seen, late);
            && v.reqs[i].ticket.issued == [o] && o in v.reqs[i].ticket.pending && !v.reqs[i].native
            && (o.Ok? ==> v.st.retained == Some(Retained(i, w.st.epoch, w.st.revision, result.value.png)))
            && (o.Err? ==> v.st.retained == w.st.retained)
  {
    ReachableInv(w);
    assert Sound(w, i);
    var a := w.st.active.value;
    if result.Ok? { DescribedIsAcceptable(w.generation, a, w.st.epoch, result.value); }
    var o := Expected(w, i, result, seen, late);
    assert CompleteLocked(w.st, w.generation, i, w.reqs[i].epoch, result, true, seen, late).1 == Some(o);
    assert o in multiset{o};
  }

  /** A step that discards the PNG retained under id `i`. */
  predicate Discards(w: World, s: Step, i: nat)
    requires Enabled(w, s)
  {
    match s
    case Navigate(_) => true
    case Resize => true
    case Close => true
    case NotifyClosed(_) => true
    case PollRetired(_) => true
    case Claim(_) => w.st.epoch != 0 && w.st.nextId < 0xFFFF_FFFF_FFFF_FFFF
    case ReleaseContent(c, seen) =>
      seen && c.generation == w.generation && c.id == i && c.epoch == w.st.epoch && c.revision == w.st.revision
    case Drop(k) => k == i && !w.reqs[k].ticket.delivered
    case _ => false
  }

  /**
   A retained PNG is discarded exactly by a navigation, a resize, close, a new capture,
   its own release or the drop of its own request before delivery; whatever else
   happens, the very same bytes stay.
   */
  lemma {:induction false} DiscardedExactly(w: World, s: Step, i: nat)
    requires Inv(w) && Enabled(w, s) && IsRetained(w.st, i)
    ensures Discards(w, s, i) ==> Apply(w, s).st.retained.None?
    ensures !Discards(w, s, i) ==> Apply(w, s).st.retained == w.st.retained
  {
  }

  /**
   A deadline thread never outlives its use: once its request is over, or the document,
   the viewport or the host has moved on, its next step is enabled whether or not the
   deadline has passed, and takes it nearer to its exit.
   */
  lemma {:induction false} DeadlineThreadExits(w: World, i: nat) returns (s: Step)
    requires Reachable(w) && i in w.pool.holders && i in w.reqs
    requires !IsActive(w.st, i) || (Superfluous(w.st, w.st.active.value) && !w.reqs[i].ticket.phase.Claimed?)
    ensures Enabled(w, s) && i in Apply(w, s).reqs
    ensures Age(w.reqs[i].ticket.worker) < Age(Apply(w, s).reqs[i].ticket.worker) <= 4
  {
    ReachableInv(w);
    assert Sound(w, i);
    match w.reqs[i].ticket.worker
    case Waiting => s := WorkerWake(i);
    case Firing => s := WorkerTimeout(i);
    case Done =>
      PoolSteps(w.pool, i);
      s := WorkerExit(i);
  }

  // ----- tokens -----

  /** `lease_png` would succeed now. */
  predicate Leasable(w: World, t: Token)
  {
    w.hostActive && Backed(w, t)
  }

  /** Once a token stops being leasable it is never leasable again, whatever happens. */
  lemma {:induction false} DeadTokenStaysDead(w: World, run: seq<Step>, t: Token)
    requires Inv(w) && Valid(w, run) && Minted(w, t)
    ensures Minted(Exec(w, run), t)
    ensures Leasable(Exec(w, run), t) ==> Leasable(w, t)
  {
    RunGrows(w, run);
    var v := Exec(w, run);
    if t.generation == w.generation {
      assert Kept(w, v, t.id);
    }
  }

  /** A leasable token names exactly the retained PNG of the current document and viewport. */
  lemma {:induction false} LeasableNamesRetained(w: World, t: Token)
    requires Inv(w) && Leasable(w, t)
    ensures Minted(w, t)
    ensures IsRetained(w.st, t.id) && t == Token(w.generation, t.id, w.st.epoch, w.st.revision)
    ensures LeaseLocked(w.st, w.generation, t, true).value == w.st.retained.value.png
  {
  }

  // ----- skipping the encoder -----

  /**
   `complete_if_current` may skip the encoder: once `current` was false for the
   active request, in every later state the completion ignores the result it is
   given, so passing `Cancelled` instead of the encoded image changes nothing.
   Readings of the lifetime and the clock made later can only be staler-proof:
   `seen'` implies `seen`, and `late` implies `late'`.
   */
  lemma {:induction false} SkippedEncoderIsUnobservable(w: World, run: seq<Step>, i: nat, image: Result<Image, CaptureError>,
                                     alive: bool, seen: bool, late: bool, seen': bool, late': bool)
    requires Reachable(w) && Valid(w, run) && i in w.reqs
    requires !CurrentLocked(w.st, i, w.reqs[i].epoch, seen, late)
    requires (seen' ==> seen) && (late ==> late')
    ensures var v := Exec(w, run);
            CompleteLocked(v.st, v.generation, i, w.reqs[i].epoch, image, alive, seen', late')
            == CompleteLocked(v.st, v.generation, i, w.reqs[i].epoch, Err(Cancelled), alive, seen', late')
  {
    ReachableInv(w);
    RunGrows(w, run);
    var v := Exec(w, run);
    assert Sound(w, i);
    assert Kept(w, v, i);
    if IsActive(v.st, i) && seen && !late {
      assert Spoiled(w.st, w.st.active.value);
    }
  }

  // ----- deadlines -----

  /**
   No live request waits with its deadline disarmed: a request the host holds and
   has not been answered has its outcome in the slot or on the way to it, or its
   native operation is outstanding and its deadline thread still armed.
   */
  lemma {:induction false} DeadlineStaysArmed(w: World, i: nat)
    requires Reachable(w) && i in w.reqs && w.reqs[i].ticket.phase.Held? && !w.reqs[i].ticket.delivered
    ensures var t := w.reqs[i].ticket;
            || t.slot.Some?
            || t.pending != multiset{}
            || (w.reqs[i].native && !t.disarmed && (t.worker.Waiting? || t.worker.Firing?))
  {
    ReachableInv(w);
    assert Sound(w, i);
  }

  /** A finished timer is explained: an outcome was issued, or the request was dropped or never handed out. */
  lemma {:induction false} DisarmedIsExplained(w: World, i: nat)
    requires Reachable(w) && i in w.reqs && w.reqs[i].ticket.disarmed
    ensures var t := w.reqs[i].ticket;
            t.settled || t.pending != multiset{} || t.phase.Dropping? || t.phase.Gone?
  {
    ReachableInv(w);
    assert Sound(w, i);
  }

  /** The host holds the request and has not been given its outcome. */
  predicate Awaiting(w: World, i: nat)
  {
    i in w.reqs && w.reqs[i].ticket.phase.Held? && !w.reqs[i].ticket.delivered
  }

  /** How many due steps the outcome is away from the slot. */
  function Rank(t: Ticket<Outcome>): nat
  {
    if t.slot.Some? then 0
    else if t.pending != multiset{} then 1
    else if t.worker.Firing? then 2
    else if t.worker.Waiting? then 3
    else 4
  }

  /** The step that brings the outcome of `i` nearer, whichever it is now. */
  predicate Due(w: World, s: Step, i: nat)
    requires i in w.reqs
  {
    match Rank(w.reqs[i].ticket)
    case 1 => s.Complete? && s.id == i
    case 2 => s == WorkerTimeout(i)
    case 3 => s == WorkerWake(i)
    case _ => false
  }

  lemma {:induction false} RankBounded(w: World, i: nat)
    requires Inv(w) && Awaiting(w, i)
    ensures Rank(w.reqs[i].ticket) <= 3
    ensures Rank(w.reqs[i].ticket) <= 1 <==> w.reqs[i].ticket.issued != []
  {
    assert Sound(w, i);
  }

  /** Past the deadline a due step is enabled as long as the slot is empty. */
  lemma {:induction false} DueStep(w: World, i: nat) returns (s: Step)
    requires Inv(w) && Awaiting(w, i) && w.reqs[i].ticket.expired && w.reqs[i].ticket.slot.None?
    ensures Enabled(w, s) && Due(w, s, i)
  {
    assert Sound(w, i);
    var t := w.reqs[i].ticket;
    if t.pending != multiset{} {
      var o :| o in t.pending;
      s := Complete(i, o);
    } else {
      s := if t.worker.Firing? then WorkerTimeout(i) else WorkerWake(i);
    }
  }

  lemma {:induction false} DueLowers(w: World, s: Step, i: nat)
    requires Inv(w) && Enabled(w, s) && Awaiting(w, i) && Due(w, s, i)
    ensures Awaiting(Apply(w, s), i) && Rank(Apply(w, s).reqs[i].ticket) < Rank(w.reqs[i].ticket)
  {
    assert Sound(w, i);
    var t := w.reqs[i].ticket;
    if s.WorkerTimeout? {
      assert Err(Timeout) in Issue(t, Err(Timeout)).pending;
    }
  }

  /** No step of anybody takes the outcome further away. */
  lemma {:induction false} RankNeverRises(w: World, s: Step, i: nat)
    requires Inv(w) && Enabled(w, s) && Awaiting(w, i) && Awaiting(Apply(w, s), i)
    ensures Rank(Apply(w, s).reqs[i].ticket) <= Rank(w.reqs[i].ticket)
  {
    StepKeepsInv(w, s);
    StepGrows(w, s);
    assert Kept(w, Apply(w, s), i);
    RankOf(w, Apply(w, s), i);
  }

  lemma {:induction false} RankOf(w: World, v: World, i: nat)
    requires Inv(w) && Inv(v) && Awaiting(w, i) && Awaiting(v, i) && Kept(w, v, i)
    ensures Rank(v.reqs[i].ticket) <= Rank(w.reqs[i].ticket)
  {
    assert Sound(w, i) && Sound(v, i);
    RankBounded(w, i);
    RankBounded(v, i);
    assert w.reqs[i].ticket.issued <= v.reqs[i].ticket.issued;
  }

  predicate AwaitingThroughout(w: World, run: seq<Step>, i: nat)
    requires Valid(w, run)
    decreases |run|
  {
    Awaiting(w, i) && (run != [] ==> AwaitingThroughout(Apply(w, run[0]), run[1..], i))
  }

  function DueSteps(w: World, run: seq<Step>, i: nat): nat
    requires Valid(w, run) && AwaitingThroughout(w, run, i)
    decreases |run|
  {
    if run == [] then 0
    else (if Due(w, run[0], i) then 1 else 0) + DueSteps(Apply(w, run[0]), run[1..], i)
  }

  lemma {:induction false} RankRun(w: World, run: seq<Step>, i: nat)
    requires Inv(w) && Valid(w, run) && AwaitingThroughout(w, run, i)
    ensures Inv(Exec(w, run)) && Awaiting(Exec(w, run), i)
    ensures Rank(Exec(w, run).reqs[i].ticket) + DueSteps(w, run, i) <= Rank(w.reqs[i].ticket)
    ensures w.reqs[i].ticket.expired ==> Exec(w, run).reqs[i].ticket.expired
    decreases |run|
  {
    if run != [] {
      var v := Apply(w, run[0]);
      StepKeepsInv(w, run[0]);
      StepGrows(w, run[0]);
      assert Kept(w, v, i);
      if Due(w, run[0], i) { DueLowers(w, run[0], i); } else { RankNeverRises(w, run[0], i); }
      RankRun(v, run[1..], i);
    }
  }

  /**
   The deadline answers a held request, whatever everybody else does: in every
   continuation in which the host still waits, at most three due steps were taken, and
   past the deadline the outcome is in the slot or another due step is enabled.
   */
  lemma {:induction false} DeadlineAnswers(w: World, run: seq<Step>, i: nat)
    requires Reachable(w) && Valid(w, run) && AwaitingThroughout(w, run, i)
    ensures DueSteps(w, run, i) <= 3
    ensures Awaiting(Exec(w, run), i)
    ensures w.reqs[i].ticket.expired ==>
              || Exec(w, run).reqs[i].ticket.slot.Some?
              || exists s :: Enabled(Exec(w, run), s) && Due(Exec(w, run), s, i)
  {
    ReachableInv(w);
    RankRun(w, run, i);
    RankBounded(w, i);
    var v := Exec(w, run);
    if w.reqs[i].ticket.expired && v.reqs[i].ticket.slot.None? {
      var s := DueStep(v, i);
    }
  }

  // ----- bounds -----

  /** At most one native snapshot is outstanding, and none can be claimed until it calls back. */
  lemma {:induction false} OneNativeSnapshot(w: World, i: nat, j: nat, options: Options)
    requires Reachable(w) && i in w.reqs && j in w.reqs && w.reqs[i].native
    ensures w.reqs[j].native ==> i == j
    ensures ClaimLocked(w.st, options).Err?
  {
    ReachableInv(w);
    assert Sound(w, i) && Sound(w, j);
  }

  lemma {:induction false} ClaimExceeds(w: World, v: World, options: Options)
    requires GlobalInv(w) && v.st.nextId >= w.st.nextId && ClaimLocked(v.st, options).Ok?
    ensures forall i :: i in w.reqs ==> i < ClaimLocked(v.st, options).value.1
  {
  }

  /** Ids are handed out strictly increasing and never reused. */
  lemma {:induction false} IdsIncrease(w: World, run: seq<Step>, options: Options)
    requires Reachable(w) && Valid(w, run)
    requires ClaimLocked(Exec(w, run).st, options).Ok?
    ensures forall i :: i in w.reqs ==> i < ClaimLocked(Exec(w, run).st, options).value.1
  {
    ReachableInv(w);
    RunGrows(w, run);
    ClaimExceeds(w, Exec(w, run), options);
  }

  /** The deadline-thread counter counts exactly the live reservations and is at most eight. */
  lemma {:induction false} DeadlineThreadsBounded(w: World)
    requires Reachable(w)
    ensures w.pool.count == w.pool.loose + |w.pool.holders| <= 8
    ensures forall i :: i in w.reqs && (w.reqs[i].ticket.worker.Waiting? || w.reqs[i].ticket.worker.Firing?) ==> i in w.pool.holders
  {
    ReachableInv(w);
    forall i | i in w.reqs && (w.reqs[i].ticket.worker.Waiting? || w.reqs[i].ticket.worker.Firing?)
      ensures i in w.pool.holders
    {
      assert Sound(w, i);
    }
  }

  // ----- reading -----

  /** The host's chunked transfer: read at `offset`, then at each `next_offset` until `eof`. */
  function Transfer(s: State, generation: nat, c: Content, offset: nat): seq<byte>
    requires ReadLocked(s, generation, c, offset, true).Ok?
    decreases |s.retained.value.png| - offset
  {
    var chunk := ReadLocked(s, generation, c, offset, true).value;
    if chunk.eof then chunk.bytes
    else chunk.bytes + Transfer(s, generation, c, chunk.nextOffset)
  }

  /** Chunks are bounded, and following `next_offset` yields exactly the rest of the PNG. */
  lemma {:induction false} TransferIsComplete(s: State, generation: nat, c: Content, offset: nat)
    requires ReadLocked(s, generation, c, offset, true).Ok?
    ensures |ReadLocked(s, generation, c, offset, true).value.bytes| <= 20_480
    ensures Transfer(s, generation, c, offset) == s.retained.value.png[offset..]
    decreases |s.retained.value.png| - offset
  {
    var chunk := ReadLocked(s, generation, c, offset, true).value;
    var png := s.retained.value.png;
    if !chunk.eof {
      TransferIsComplete(s, generation, c, chunk.nextOffset);
      assert png[offset..] == png[offset..chunk.nextOffset] + png[chunk.nextOffset..];
    }
  }

  /** A success delivered to the host can be read at that instant, to the last advertised byte. */
  lemma {:induction false} DeliveredIsReadable(w: World, i: nat)
    requires Reachable(w) && Enabled(w, Validate(i, true))
    requires ValidateLocked(w.st, w.reqs[i].ticket.phase.answer.value, true).Ok?
    ensures var c := w.reqs[i].ticket.phase.answer.value;
            && ReadLocked(w.st, w.generation, c, 0, true).Ok?
            && LeaseLocked(w.st, w.generation, TokenOf(c), true) == Ok(w.st.retained.value.png)
            && Transfer(w.st, w.generation, c, 0) == w.st.retained.value.png
            && Describes(c, w.st.retained.value.png, w.reqs[i].options)
  {
    ReachableInv(w);
    assert Sound(w, i);
    DeliveryVerdict(w, i, true);
    var o := w.reqs[i].ticket.phase.answer;
    assert o in w.reqs[i].ticket.issued && o == w.reqs[i].ticket.issued[0];
    TransferIsComplete(w.st, w.generation, o.value, 0);
  }
}
