/**
 The command queue under any interleaving of senders, the UI thread, callback
 installation and close. Running a wakeup callback is a step of its own, because the
 source runs it after unlocking.
 */
module WindowCommandsProtocol {
  import opened Common
  import opened WindowCommands

  /** A wakeup some thread undertook to run, and how many drains had happened by then. */
  datatype Wake = Wake(callback: nat, batch: nat)

  /**
   What happened so far, beside the state: the commands accepted,
   the batches handed to the UI thread, commands thrown away by close, wakeups undertaken,
   and for those already run the number of drains at that moment. `installs` counts the
   callbacks installed over a backlog since the last drain; `armed` says whether a
   callback was installed when the current backlog began.
   */
  datatype World = World(
    st: State, initial: Option<Option<Rgba>>,
    accepted: seq<Command>, drained: seq<seq<Command>>, discarded: seq<Command>,
    wakes: seq<Wake>, ranAt: map<nat, nat>, installs: nat, armed: bool)

  datatype Step =
    | SetWakeup(callback: nat)
    | Send(c: Command)
    | Drain
    | Close
    | RunWakeup(k: nat)

  function Init(background: Option<Option<Rgba>>): World
  {
    World(Initial(background), background, [], [], [], [], map[], 0, false)
  }

  predicate Enabled(w: World, s: Step)
  {
    s.RunWakeup? ==> s.k < |w.wakes| && s.k !in w.ranAt
  }

  /** The thread leaves the section having to run the callback. */
  function Undertake(w: World, callback: Option<nat>): seq<Wake>
  {
    if callback.Some? then w.wakes + [Wake(callback.value, |w.drained|)] else w.wakes
  }

  function ApplySend(w: World, c: Command): World
  {
    if Refusal(w.st, c).Some? then w
    else w.(st := SendLocked(w.st, c), accepted := w.accepted + [c],
            wakes := Undertake(w, SendNotifies(w.st)),
            armed := if Queued(w.st) == [] then w.st.wakeup.Some? else w.armed)
  }

  function ApplySetWakeup(w: World, callback: nat): World
  {
    w.(st := InstallLocked(w.st, callback),
       wakes := Undertake(w, InstallNotifies(w.st, callback)),
       installs := if !w.st.closed && Queued(w.st) != [] then w.installs + 1 else w.installs)
  }

  function ApplyDrain(w: World): World
  {
    w.(st := DrainLocked(w.st), drained := w.drained + [Queued(w.st)], installs := 0)
  }

  function ApplyClose(w: World): World
  {
    w.(st := CloseLocked(w.st), discarded := w.discarded + Queued(w.st))
  }

  function Apply(w: World, s: Step): World
  {
    match s
    case SetWakeup(callback) => ApplySetWakeup(w, callback)
    case Send(c) => ApplySend(w, c)
    case Drain => ApplyDrain(w)
    case Close => ApplyClose(w)
    case RunWakeup(k) => w.(ranAt := w.ranAt[k := |w.drained|])
  }

  predicate Valid(w: World, run: seq<Step>)
    decreases |run|
  {
    run == [] || (Enabled(w, run[0]) && Valid(Apply(w, run[0]), run[1..]))
  }

  function Exec(w: World, run: seq<Step>): World
    decreases |run|
  {
    if run == [] then w else Exec(Apply(w, run[0]), run[1..])
  }

  // ----- the invariant -----

  function Concat(batches: seq<seq<Command>>): seq<Command>
  {
    if batches == [] then [] else Concat(batches[..|batches| - 1]) + batches[|batches| - 1]
  }

  /** The colour of the last background command, or the colour before any. */
  function LastColor(commands: seq<Command>, before: Option<Rgba>): Option<Rgba>
  {
    if commands == [] then before
    else
      var c := commands[|commands| - 1];
      if c.SetBackground? then Some(c.color) else LastColor(commands[..|commands| - 1], before)
  }

  /** How many wakeups were undertaken in a batch. */
  function WakesIn(wakes: seq<Wake>, batch: nat): nat
  {
    if wakes == [] then 0
    else WakesIn(wakes[..|wakes| - 1], batch) + if wakes[|wakes| - 1].batch == batch then 1 else 0
  }

  predicate FlowInv(w: World)
  {
    && w.accepted == Concat(w.drained) + w.discarded + Queued(w.st)
    && (w.discarded != [] ==> w.st.closed)
    && (match w.initial
        case None => w.st.background.None?
        case Some(before) => w.st.background == Some(LastColor(w.accepted, before)))
  }

  predicate WakeInv(w: World)
  {
    && (forall k :: 0 <= k < |w.wakes| ==> w.wakes[k].batch <= |w.drained|)
    && (forall k :: k in w.ranAt ==> k < |w.wakes| && w.wakes[k].batch <= w.ranAt[k] <= |w.drained|)
    && (w.st.wakeScheduled ==>
          w.st.wakeup.Some? && w.wakes != [] && w.wakes[|w.wakes| - 1] == Wake(w.st.wakeup.value, |w.drained|))
    && (!w.st.closed ==>
          WakesIn(w.wakes, |w.drained|) == w.installs + (if Queued(w.st) != [] && w.armed then 1 else 0))
  }

  predicate Inv(w: World)
  {
    StateInv(w.st) && FlowInv(w) && WakeInv(w)
  }

  // ----- every step keeps it -----

  lemma {:induction false} ConcatAppend(batches: seq<seq<Command>>, batch: seq<Command>)
    ensures Concat(batches + [batch]) == Concat(batches) + batch
  {
    assert (batches + [batch])[..|batches|] == batches;
  }

  lemma {:induction false} WakesInAppend(wakes: seq<Wake>, wake: Wake, batch: nat)
    ensures WakesIn(wakes + [wake], batch) == WakesIn(wakes, batch) + if wake.batch == batch then 1 else 0
  {
    assert (wakes + [wake])[..|wakes|] == wakes;
  }

  lemma {:induction false} NoWakesYet(wakes: seq<Wake>, batch: nat)
    requires forall k :: 0 <= k < |wakes| ==> wakes[k].batch < batch
    ensures WakesIn(wakes, batch) == 0
  {
    if wakes != [] { NoWakesYet(wakes[..|wakes| - 1], batch); }
  }

  lemma {:induction false} SendKeepsFlow(w: World, c: Command)
    requires Inv(w) && Refusal(w.st, c).None?
    ensures FlowInv(ApplySend(w, c))
  {
    var q := Queued(w.st);
    assert w.discarded == [];
    assert w.accepted + [c] == Concat(w.drained) + w.discarded + (q + [c]);
    assert (w.accepted + [c])[..|w.accepted|] == w.accepted;
  }

  lemma {:induction false} SendKeepsWakes(w: World, c: Command)
    requires StateInv(w.st) && WakeInv(w) && !w.st.closed && Refusal(w.st, c).None?
    ensures WakeInv(ApplySend(w, c))
  {
    if SendNotifies(w.st).Some? {
      UndertakenWakes(w, w.st.wakeup.value);
    }
  }

  lemma {:induction false} SendKeepsInv(w: World, c: Command)
    requires Inv(w)
    ensures Inv(ApplySend(w, c))
  {
    if Refusal(w.st, c).None? {
      SendKeepsFlow(w, c);
      SendKeepsWakes(w, c);
      SectionsKeepStateInv(w.st, c, 0);
    }
  }

  lemma {:induction false} SetWakeupKeepsWakes(w: World, callback: nat)
    requires StateInv(w.st) && WakeInv(w)
    ensures WakeInv(ApplySetWakeup(w, callback))
  {
    if InstallNotifies(w.st, callback).Some? {
      UndertakenWakes(w, callback);
    } else {
      assert Undertake(w, None) == w.wakes;
    }
  }

  lemma {:induction false} UndertakenWakes(w: World, callback: nat)
    requires WakeInv(w)
    ensures var next := w.wakes + [Wake(callback, |w.drained|)];
            && (forall k :: 0 <= k < |next| ==> next[k].batch <= |w.drained|)
            && (forall k :: k in w.ranAt ==> k < |next| && next[k] == w.wakes[k])
            && WakesIn(next, |w.drained|) == WakesIn(w.wakes, |w.drained|) + 1
  {
    WakesInAppend(w.wakes, Wake(callback, |w.drained|), |w.drained|);
  }

  lemma {:induction false} SetWakeupKeepsInv(w: World, callback: nat)
    requires Inv(w)
    ensures Inv(ApplySetWakeup(w, callback))
  {
    SectionsKeepStateInv(w.st, Minimize, callback);
    SetWakeupKeepsWakes(w, callback);
  }

  lemma {:induction false} DrainKeepsFlow(w: World)
    requires StateInv(w.st) && FlowInv(w)
    ensures FlowInv(ApplyDrain(w))
  {
    var q := Queued(w.st);
    ConcatAppend(w.drained, q);
    if q == [] {
      assert w.accepted == (Concat(w.drained) + q) + w.discarded + [];
    } else {
      assert w.discarded == [];
      assert w.accepted == (Concat(w.drained) + q) + [] + [];
    }
  }

  lemma {:induction false} DrainKeepsWakes(w: World)
    requires WakeInv(w)
    ensures WakeInv(ApplyDrain(w))
  {
    NoWakesYet(w.wakes, |w.drained| + 1);
  }

  lemma {:induction false} DrainKeepsInv(w: World)
    requires Inv(w)
    ensures Inv(ApplyDrain(w))
  {
    DrainKeepsFlow(w);
    DrainKeepsWakes(w);
  }

  lemma {:induction false} CloseKeepsInv(w: World)
    requires Inv(w)
    ensures Inv(ApplyClose(w))
  {
    assert w.accepted == Concat(w.drained) + (w.discarded + Queued(w.st)) + [];
  }

  lemma {:induction false} RunWakeupKeepsInv(w: World, k: nat)
    requires Inv(w) && k < |w.wakes|
    ensures Inv(w.(ranAt := w.ranAt[k := |w.drained|]))
  {
  }

  lemma {:induction false} StepKeepsInv(w: World, s: Step)
    requires Inv(w) && Enabled(w, s)
    ensures Inv(Apply(w, s))
  {
    match s
    case SetWakeup(callback) => SetWakeupKeepsInv(w, callback);
    case Send(c) => SendKeepsInv(w, c);
    case Drain => DrainKeepsInv(w);
    case Close => CloseKeepsInv(w);
    case RunWakeup(k) => RunWakeupKeepsInv(w, k);
  }

  lemma {:induction false} RunKeepsInv(w: World, run: seq<Step>)
    requires Inv(w) && Valid(w, run)
    ensures Inv(Exec(w, run))
    decreases |run|
  {
    if run != [] {
      StepKeepsInv(w, run[0]);
      RunKeepsInv(Apply(w, run[0]), run[1..]);
    }
  }

  // ----- what follows for every run -----

  ghost predicate Reachable(w: World)
  {
    exists background, run :: Valid(Init(background), run) && w == Exec(Init(background), run)
  }

  lemma {:induction false} ReachableInv(w: World)
    requires Reachable(w)
    ensures Inv(w)
  {
    var background, run :| Valid(Init(background), run) && w == Exec(Init(background), run);
    RunKeepsInv(Init(background), run);
  }

  /** The callback was run, and the UI thread drained the queue after that. */
  predicate Served(w: World, k: nat)
  {
    k in w.ranAt && w.ranAt[k] < |w.drained|
  }

  /**
   No lost wakeup. The flag is up exactly when commands wait and a callback is installed,
   and then that very callback was undertaken since the last drain. So once every wakeup
   has been run and followed by a drain, nothing waits unless no callback is installed.
   */
  lemma {:induction false} NoLostWakeup(w: World)
    requires Reachable(w)
    ensures w.st.wakeScheduled <==> Queued(w.st) != [] && w.st.wakeup.Some?
    ensures w.st.wakeScheduled ==> Wake(w.st.wakeup.value, |w.drained|) in w.wakes
    ensures (forall k :: 0 <= k < |w.wakes| ==> Served(w, k)) && w.st.wakeup.Some? ==> Queued(w.st) == []
  {
    ReachableInv(w);
    if w.st.wakeScheduled {
      assert !Served(w, |w.wakes| - 1);
    }
  }

  /** A wakeup is run once, and a drain after that serves it. */
  lemma {:induction false} WakeupThenDrainServes(w: World, k: nat)
    requires Reachable(w) && k < |w.wakes| && !Served(w, k)
    ensures k !in w.ranAt ==> Enabled(w, RunWakeup(k)) && Served(Apply(Apply(w, RunWakeup(k)), Drain), k)
    ensures k in w.ranAt ==> !Enabled(w, RunWakeup(k)) && Served(Apply(w, Drain), k)
  {
    ReachableInv(w);
  }

  /** One wakeup a batch, plus one for each callback installed over the backlog. */
  lemma {:induction false} OneWakeupPerBatch(w: World)
    requires Reachable(w) && !w.st.closed
    ensures WakesIn(w.wakes, |w.drained|) == w.installs + if Queued(w.st) != [] && w.armed then 1 else 0
  {
    ReachableInv(w);
  }

  /** Title bytes are accounted exactly, and both limits hold. */
  lemma {:induction false} WithinLimits(w: World)
    requires Reachable(w)
    ensures w.st.titleBytes == TitleBytes(Queued(w.st)) <= 65_536
    ensures |Queued(w.st)| <= 256
  {
    ReachableInv(w);
  }

  /**
   Until close, the batches handed out followed by the queue are the accepted commands,
   in order and without loss; close discards exactly the tail that was still queued, and
   nothing is accepted afterwards.
   */
  lemma {:induction false} DeliveredInOrder(w: World)
    requires Reachable(w)
    ensures !w.st.closed ==> w.accepted == Concat(w.drained) + Queued(w.st)
    ensures w.st.closed ==> w.accepted == Concat(w.drained) + w.discarded
  {
    ReachableInv(w);
  }

  lemma {:induction false} NothingAfterClose(w: World, run: seq<Step>)
    requires Reachable(w) && w.st.closed && Valid(w, run)
    ensures Exec(w, run).accepted == w.accepted && Exec(w, run).st.closed
    ensures Exec(w, run).wakes == w.wakes && Concat(Exec(w, run).drained) == Concat(w.drained)
  {
    ReachableInv(w);
    ClosedIsFinal(w, run);
  }

  lemma {:induction false} ClosedIsFinal(w: World, run: seq<Step>)
    requires Inv(w) && w.st.closed && Valid(w, run)
    ensures Exec(w, run).accepted == w.accepted && Exec(w, run).st.closed
    ensures Exec(w, run).wakes == w.wakes && Concat(Exec(w, run).drained) == Concat(w.drained)
    decreases |run|
  {
    if run != [] {
      var next := Apply(w, run[0]);
      StepKeepsInv(w, run[0]);
      if run[0].Drain? { ConcatAppend(w.drained, []); }
      ClosedIsFinal(next, run[1..]);
    }
  }

  /** The live background is the last accepted background command. */
  lemma {:induction false} BackgroundIsLast(w: World)
    requires Reachable(w) && w.initial.Some?
    ensures w.st.background == Some(LastColor(w.accepted, w.initial.value))
  {
    ReachableInv(w);
  }
}
