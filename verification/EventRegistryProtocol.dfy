/**
 The registry under any interleaving of registrations, dropped subscriptions, close and
 dispatches, each dispatch advancing one callback at a time so that callbacks can nest,
 register, drop and close freely while others are in progress.
 */
module EventRegistryProtocol {
  import opened Common
  import opened EventRegistry

  /** Registrations are numbered in order; the number is also the handler's identity. */
  datatype Entry = Registered(n: nat) | Dropped(n: nat) | Shut

  /** A dispatch: how long the log was when it started, its snapshot, and how far it got. */
  datatype Dispatch = Dispatch(
    since: nat, snapshot: seq<Registration>, called: seq<nat>, answers: seq<Response>, response: Response)

  datatype World = World(
    st: State, log: seq<Entry>, registrations: nat, subscriptions: set<nat>, dispatches: seq<Dispatch>)

  datatype Step =
    | Register(subscribe: bool)
    | DropSubscription(n: nat)
    | Close
    | Begin
    | Call(d: nat)
    | Answer(d: nat, response: Response)

  const INIT := World(INITIAL, [], 0, {}, [])

  predicate Enabled(w: World, s: Step)
  {
    match s
    case DropSubscription(n) => n in w.subscriptions
    case Call(d) =>
      d < |w.dispatches| && var f := w.dispatches[d]; |f.called| == |f.answers| < |f.snapshot|
    case Answer(d, _) =>
      d < |w.dispatches| && var f := w.dispatches[d]; |f.called| == |f.answers| + 1
    case _ => true
  }

  function ApplyRegister(w: World, subscribe: bool): World
  {
    if RegistrationRefusal(w.st).Some? then w
    else w.(st := RegisterLocked(w.st, w.registrations),
            log := w.log + [Registered(w.registrations)],
            registrations := w.registrations + 1,
            subscriptions := if subscribe then w.subscriptions + {w.registrations} else w.subscriptions)
  }

  /** A subscription knows the wrapped id it was given, not its registration number. */
  function ApplyDrop(w: World, n: nat): World
  {
    w.(st := RemoveLocked(w.st, n % ID_SPACE), log := w.log + [Dropped(n)], subscriptions := w.subscriptions - {n})
  }

  function ApplyClose(w: World): World
  {
    w.(st := CloseLocked(w.st), log := w.log + [Shut])
  }

  function ApplyBegin(w: World): World
  {
    w.(dispatches := w.dispatches + [Dispatch(|w.log|, Handlers(w.st), [], [], Continue)])
  }

  function ApplyCall(w: World, d: nat): World
    requires Enabled(w, Call(d))
  {
    var f := w.dispatches[d];
    w.(dispatches := w.dispatches[d := f.(called := f.called + [f.snapshot[|f.called|].handler])])
  }

  function ApplyAnswer(w: World, d: nat, response: Response): World
    requires Enabled(w, Answer(d, response))
  {
    var f := w.dispatches[d];
    w.(dispatches := w.dispatches[d := f.(answers := f.answers + [response],
                                          response := if response == PreventDefault then PreventDefault else f.response)])
  }

  function Apply(w: World, s: Step): World
    requires Enabled(w, s)
  {
    match s
    case Register(subscribe) => ApplyRegister(w, subscribe)
    case DropSubscription(n) => ApplyDrop(w, n)
    case Close => ApplyClose(w)
    case Begin => ApplyBegin(w)
    case Call(d) => ApplyCall(w, d)
    case Answer(d, response) => ApplyAnswer(w, d, response)
  }

  predicate Valid(w: World, run: seq<Step>)
    decreases |run|
  {
    run == [] || (Enabled(w, run[0]) && Valid(Apply(w, run[0]), run[1..]))
  }

  function Exec(w: World, run: seq<Step>): World
    requires Valid(w, run)
    decreases |run|
  {
    if run == [] then w else Exec(Apply(w, run[0]), run[1..])
  }

  // ----- what is registered, told from the log alone -----

  /** Registered, its subscription not dropped, and the registry not closed. */
  predicate Live(log: seq<Entry>, n: nat)
  {
    Registered(n) in log && Dropped(n) !in log && Shut !in log
  }

  predicate Ordered(handlers: seq<Registration>)
  {
    forall i, j :: 0 <= i < j < |handlers| ==> handlers[i].handler < handlers[j].handler
  }

  predicate Holds(handlers: seq<Registration>, n: nat)
  {
    exists i :: 0 <= i < |handlers| && handlers[i].handler == n
  }

  /** Exactly the live handlers, in registration order (an ordered list is determined by what it holds). */
  ghost predicate ExactlyLive(handlers: seq<Registration>, log: seq<Entry>)
  {
    Ordered(handlers) && forall n: nat :: Holds(handlers, n) <==> Live(log, n)
  }

  function Names(snapshot: seq<Registration>): (r: seq<nat>)
    ensures |r| == |snapshot| && forall i :: 0 <= i < |r| ==> r[i] == snapshot[i].handler
  {
    seq(|snapshot|, i requires 0 <= i < |snapshot| => snapshot[i].handler)
  }

  // ----- the invariant -----

  /** Holds in every run, wrap-around included. */
  ghost predicate ListInv(w: World)
  {
    && StateInv(w.st)
    && w.st.nextId == w.registrations % ID_SPACE
    && Ordered(Handlers(w.st))
    && (forall i :: 0 <= i < |Handlers(w.st)| ==>
          var r := Handlers(w.st)[i]; r.handler < w.registrations && r.id == r.handler % ID_SPACE)
  }

  ghost predicate LogInv(w: World)
  {
    && (forall n: nat :: Registered(n) in w.log ==> n < w.registrations)
    && (forall n: nat :: Dropped(n) in w.log ==> n < w.registrations)
    && (forall n :: n in w.subscriptions ==> n < w.registrations)
    && (w.st.closed <==> Shut in w.log)
    && (w.registrations <= ID_SPACE ==> ExactlyLive(Handlers(w.st), w.log))
  }

  ghost predicate DispatchInv(f: Dispatch, log: seq<Entry>, wrapped: bool)
  {
    && f.since <= |log|
    && (!wrapped ==> ExactlyLive(f.snapshot, log[..f.since]))
    && |f.answers| <= |f.called| <= |f.snapshot| && |f.called| <= |f.answers| + 1
    && f.called == Names(f.snapshot)[..|f.called|]
    && (f.response == PreventDefault <==> PreventDefault in f.answers)
  }

  ghost predicate Inv(w: World)
  {
    && ListInv(w) && LogInv(w)
    && forall d :: 0 <= d < |w.dispatches| ==> DispatchInv(w.dispatches[d], w.log, w.registrations > ID_SPACE)
  }

  // ----- every step keeps it -----

  function Removing(handlers: seq<Registration>, i: nat): seq<Registration>
    requires i < |handlers|
  {
    handlers[..i] + handlers[i + 1..]
  }

  lemma {:induction false} RemovingHolds(handlers: seq<Registration>, i: nat, n: nat)
    requires i < |handlers| && Ordered(handlers)
    ensures Holds(Removing(handlers, i), n) <==> Holds(handlers, n) && n != handlers[i].handler
  {
    var rest := Removing(handlers, i);
    if Holds(rest, n) {
      var k :| 0 <= k < |rest| && rest[k].handler == n;
      assert handlers[if k < i then k else k + 1].handler == n;
    }
    if Holds(handlers, n) && n != handlers[i].handler {
      var k :| 0 <= k < |handlers| && handlers[k].handler == n;
      assert rest[if k < i then k else k - 1].handler == n;
    }
  }

  /** Removing the entry at a position removes that handler and no other, and keeps the order. */
  lemma {:induction false} Without(handlers: seq<Registration>, i: nat)
    requires i < |handlers| && Ordered(handlers)
    ensures Ordered(Removing(handlers, i))
    ensures forall n: nat :: Holds(Removing(handlers, i), n) <==> Holds(handlers, n) && n != handlers[i].handler
  {
    var rest := Removing(handlers, i);
    forall a, b | 0 <= a < b < |rest| ensures rest[a].handler < rest[b].handler {
      assert rest[a] == handlers[if a < i then a else a + 1];
      assert rest[b] == handlers[if b < i then b else b + 1];
    }
    forall n: nat { RemovingHolds(handlers, i, n); }
  }

  /** The log grows, so what a dispatch started from is still a prefix of it. */
  lemma {:induction false} DispatchesKept(w: World, e: Entry, wrapped: bool)
    requires Inv(w) && (!wrapped ==> w.registrations <= ID_SPACE)
    ensures forall d :: 0 <= d < |w.dispatches| ==> DispatchInv(w.dispatches[d], w.log + [e], wrapped)
  {
    forall d | 0 <= d < |w.dispatches| ensures DispatchInv(w.dispatches[d], w.log + [e], wrapped) {
      var f := w.dispatches[d];
      assert DispatchInv(f, w.log, w.registrations > ID_SPACE);
      assert (w.log + [e])[..f.since] == w.log[..f.since];
    }
  }

  lemma {:induction false} RegisterKeepsList(w: World, subscribe: bool)
    requires ListInv(w) && RegistrationRefusal(w.st).None?
    ensures ListInv(ApplyRegister(w, subscribe))
  {
    var n := w.registrations;
    var h, k := Handlers(w.st), Handlers(RegisterLocked(w.st, n));
    assert k == h + [Registration(w.st.nextId, n)];
    assert (n + 1) % ID_SPACE == (w.st.nextId + 1) % ID_SPACE;
    forall i | 0 <= i < |k| ensures k[i].handler < n + 1 && k[i].id == k[i].handler % ID_SPACE {
      if i < |h| { assert k[i] == h[i]; }
    }
    forall i, j | 0 <= i < j < |k| ensures k[i].handler < k[j].handler {
      assert k[i] == h[i];
      if j < |h| { assert k[j] == h[j]; }
    }
  }

  lemma {:induction false} RegisterKeepsLive(w: World)
    requires ListInv(w) && LogInv(w) && RegistrationRefusal(w.st).None? && w.registrations < ID_SPACE
    ensures forall n: nat :: Holds(Handlers(RegisterLocked(w.st, w.registrations)), n) <==>
                        Live(w.log + [Registered(w.registrations)], n)
  {
    var h, k := Handlers(w.st), Handlers(RegisterLocked(w.st, w.registrations));
    var log := w.log + [Registered(w.registrations)];
    assert k[|h|].handler == w.registrations;
    forall n: nat ensures Holds(k, n) <==> Live(log, n) {
      assert Holds(h, n) <==> Live(w.log, n);
      if Holds(h, n) {
        var i :| 0 <= i < |h| && h[i].handler == n;
        assert k[i] == h[i];
      } else if Holds(k, n) {
        var i :| 0 <= i < |k| && k[i].handler == n;
        assert i == |h|;
      }
    }
  }

  lemma {:induction false} RegisterKeepsInv(w: World, subscribe: bool)
    requires Inv(w)
    ensures Inv(ApplyRegister(w, subscribe))
  {
    if RegistrationRefusal(w.st).None? {
      RegisterKeepsList(w, subscribe);
      if w.registrations < ID_SPACE { RegisterKeepsLive(w); }
      DispatchesKept(w, Registered(w.registrations), w.registrations + 1 > ID_SPACE);
    }
  }

  lemma {:induction false} DropKeepsList(w: World, n: nat)
    requires ListInv(w)
    ensures ListInv(ApplyDrop(w, n))
  {
    var at := Position(Handlers(w.st), n % ID_SPACE);
    if at.Some? {
      Without(Handlers(w.st), at.value);
      var rest := Removing(Handlers(w.st), at.value);
      forall i | 0 <= i < |rest|
        ensures rest[i].handler < w.registrations && rest[i].id == rest[i].handler % ID_SPACE
      {
        assert rest[i] == Handlers(w.st)[if i < at.value then i else i + 1];
      }
    }
  }

  /** Before ids wrap around, an id names one handler, so dropping removes exactly its own. */
  lemma {:induction false} DropRemovesExactly(w: World, n: nat)
    requires ListInv(w) && n < w.registrations <= ID_SPACE
    ensures forall m: nat :: Holds(Handlers(ApplyDrop(w, n).st), m) <==> Holds(Handlers(w.st), m) && m != n
  {
    var h := Handlers(w.st);
    assert n % ID_SPACE == n;
    assert forall i :: 0 <= i < |h| ==> h[i].id == h[i].handler;
    var at := Position(h, n);
    if at.Some? { Without(h, at.value); }
  }

  lemma {:induction false} DropKeepsInv(w: World, n: nat)
    requires Inv(w) && n in w.subscriptions
    ensures Inv(ApplyDrop(w, n))
  {
    DropKeepsList(w, n);
    DispatchesKept(w, Dropped(n), w.registrations > ID_SPACE);
    if w.registrations <= ID_SPACE {
      DropRemovesExactly(w, n);
      forall m: nat ensures Holds(Handlers(ApplyDrop(w, n).st), m) <==> Live(w.log + [Dropped(n)], m) {
        assert Holds(Handlers(w.st), m) <==> Live(w.log, m);
      }
    }
  }

  lemma {:induction false} CloseKeepsInv(w: World)
    requires Inv(w)
    ensures Inv(ApplyClose(w))
  {
    DispatchesKept(w, Shut, w.registrations > ID_SPACE);
  }

  lemma {:induction false} BeginKeepsInv(w: World)
    requires Inv(w)
    ensures Inv(ApplyBegin(w))
  {
    assert w.log[..|w.log|] == w.log;
    assert DispatchInv(Dispatch(|w.log|, Handlers(w.st), [], [], Continue), w.log, w.registrations > ID_SPACE);
  }

  lemma {:induction false} DispatchStepKeepsInv(w: World, s: Step)
    requires Inv(w) && Enabled(w, s) && (s.Call? || s.Answer?)
    ensures Inv(Apply(w, s))
  {
    var f, g := w.dispatches[s.d], Apply(w, s).dispatches[s.d];
    assert DispatchInv(f, w.log, w.registrations > ID_SPACE);
    if s.Call? {
      assert g.called == Names(f.snapshot)[..|g.called|];
    }
    assert DispatchInv(g, w.log, w.registrations > ID_SPACE);
  }

  lemma {:induction false} StepKeepsInv(w: World, s: Step)
    requires Inv(w) && Enabled(w, s)
    ensures Inv(Apply(w, s))
  {
    match s
    case Register(subscribe) => RegisterKeepsInv(w, subscribe);
    case DropSubscription(n) => DropKeepsInv(w, n);
    case Close => CloseKeepsInv(w);
    case Begin => BeginKeepsInv(w);
    case Call(_) => DispatchStepKeepsInv(w, s);
    case Answer(_, _) => DispatchStepKeepsInv(w, s);
  }

  lemma {:induction false} RunKeepsInv(w: World, run: seq<Step>)
    requires Inv(w) && Valid(w, run)
    ensures Inv(Exec(w, run))
    decreases |run|
  {
    if run != [] {
      StepKeepsInv(w, run[0]);
      RunKeepsInv(Apply(w, run[0]), run[1..]);
    }
  }

  // ----- what follows for every run -----

  ghost predicate Reachable(w: World)
  {
    exists run :: Valid(INIT, run) && w == Exec(INIT, run)
  }

  lemma {:induction false} ReachableInv(w: World)
    requires Reachable(w)
    ensures Inv(w)
  {
    var run :| Valid(INIT, run) && w == Exec(INIT, run);
    RunKeepsInv(INIT, run);
  }

  /** At most 256 handlers, and until ids wrap around exactly the live ones in registration order. */
  lemma {:induction false} RegisteredExactly(w: World)
    requires Reachable(w)
    ensures |Handlers(w.st)| <= 256
    ensures w.registrations <= ID_SPACE ==> ExactlyLive(Handlers(w.st), w.log)
  {
    ReachableInv(w);
  }

  /**
   However dispatches nest and whatever registers, drops or closes meanwhile, a dispatch
   has called a prefix of the handlers that were live when it started, in registration
   order and each once; when it has all its answers it has called all of them, and it
   prevents the default exactly when one of them does.
   */
  lemma {:induction false} DispatchRunsItsSnapshot(w: World, d: nat)
    requires Reachable(w) && d < |w.dispatches|
    ensures var f := w.dispatches[d];
            && f.since <= |w.log|
            && (w.registrations <= ID_SPACE ==> ExactlyLive(f.snapshot, w.log[..f.since]))
            && |f.called| <= |f.snapshot| && f.called == Names(f.snapshot)[..|f.called|]
            && (|f.answers| == |f.snapshot| ==> f.called == Names(f.snapshot))
            && (f.response == PreventDefault <==> PreventDefault in f.answers)
  {
    ReachableInv(w);
    var f := w.dispatches[d];
    assert DispatchInv(f, w.log, w.registrations > ID_SPACE);
    if |f.answers| == |f.snapshot| { assert Names(f.snapshot)[..|f.called|] == Names(f.snapshot); }
  }

  /** A dispatch starts with the handler list of that moment, having called nobody. */
  lemma {:induction false} BeginStarts(w: World)
    ensures Apply(w, Begin).dispatches == w.dispatches + [Dispatch(|w.log|, Handlers(w.st), [], [], Continue)]
    ensures Apply(w, Begin).st == w.st && Apply(w, Begin).log == w.log
  {
  }

  /** What a dispatch still has to do: a call and an answer for each handler left. */
  function Left(f: Dispatch): int
  {
    2 * |f.snapshot| - |f.called| - |f.answers|
  }

  /**
   A dispatch that is not done can always go on, whatever the answers are, each step of its
   own brings it one nearer to its end, and no step of anybody else changes it.
   */
  lemma {:induction false} DispatchGoesOn(w: World, d: nat, response: Response)
    requires Reachable(w) && d < |w.dispatches| && Left(w.dispatches[d]) > 0
    ensures var s := if |w.dispatches[d].called| == |w.dispatches[d].answers| then Call(d) else Answer(d, response);
            && Enabled(w, s) && d < |Apply(w, s).dispatches|
            && Left(Apply(w, s).dispatches[d]) == Left(w.dispatches[d]) - 1
            && forall e :: 0 <= e < |w.dispatches| && e != d ==> Apply(w, s).dispatches[e] == w.dispatches[e]
  {
    ReachableInv(w);
    assert DispatchInv(w.dispatches[d], w.log, w.registrations > ID_SPACE);
  }

  /** A dispatch with nothing left has all its answers, so `DispatchRunsItsSnapshot` gives its result. */
  lemma {:induction false} DispatchDone(w: World, d: nat)
    requires Reachable(w) && d < |w.dispatches|
    ensures Left(w.dispatches[d]) >= 0
    ensures Left(w.dispatches[d]) == 0 <==> |w.dispatches[d].answers| == |w.dispatches[d].snapshot|
  {
    ReachableInv(w);
    assert DispatchInv(w.dispatches[d], w.log, w.registrations > ID_SPACE);
  }

  /** Nothing that happens later changes what a dispatch runs on. */
  lemma {:induction false} SnapshotIsFixed(w: World, run: seq<Step>, d: nat)
    requires Valid(w, run) && d < |w.dispatches|
    ensures d < |Exec(w, run).dispatches|
    ensures Exec(w, run).dispatches[d].snapshot == w.dispatches[d].snapshot
    ensures w.dispatches[d].called <= Exec(w, run).dispatches[d].called
    decreases |run|
  {
    if run != [] {
      SnapshotIsFixed(Apply(w, run[0]), run[1..], d);
    }
  }

  // ----- dropping under wrap-around -----

  /** Dropping `n` takes away its own handler, if it is still listed, and no other. */
  ghost predicate DropsItsOwn(w: World, n: nat)
  {
    forall m: nat :: Holds(Handlers(ApplyDrop(w, n).st), m) <==> Holds(Handlers(w.st), m) && m != n
  }

  /** The first listed entry with the wrapped id of `n` is the handler of `n`, or there is none. */
  predicate FirstIsOwn(handlers: seq<Registration>, n: nat)
  {
    match Position(handlers, n % ID_SPACE)
    case None => true
    case Some(i) => handlers[i].handler == n
  }

  lemma {:induction false} DropsFirst(w: World, n: nat)
    requires ListInv(w)
    ensures DropsItsOwn(w, n) <==> FirstIsOwn(Handlers(w.st), n)
  {
    var h := Handlers(w.st);
    match Position(h, n % ID_SPACE)
    case None =>
      assert Handlers(ApplyDrop(w, n).st) == h;
      assert !Holds(h, n);
    case Some(i) =>
      assert Handlers(ApplyDrop(w, n).st) == Removing(h, i);
      Without(h, i);
      assert Holds(h, h[i].handler);
  }

  lemma {:induction false} FirstIsOwnBeforeWrap(w: World, n: nat)
    requires ListInv(w) && n < w.registrations <= ID_SPACE
    ensures FirstIsOwn(Handlers(w.st), n)
  {
    var h := Handlers(w.st);
    Unwrapped(n);
    match Position(h, n)
    case None =>
    case Some(i) => Unwrapped(h[i].handler);
  }

  lemma {:induction false} Unwrapped(n: nat)
    requires n < ID_SPACE
    ensures n % ID_SPACE == n
  {
  }

  /**
   With wrap-around in the picture, dropping a subscription, listed or not, removes its
   own handler and no other exactly when the first entry with its wrapped id is its own
   or there is none. Before the ids wrap around that is always so.
   */
  lemma {:induction false} DropRemovesItsOwn(w: World, n: nat)
    requires Reachable(w) && n in w.subscriptions
    ensures DropsItsOwn(w, n) <==> FirstIsOwn(Handlers(w.st), n)
    ensures w.registrations <= ID_SPACE ==> DropsItsOwn(w, n)
  {
    ReachableInv(w);
    DropsFirst(w, n);
    if w.registrations <= ID_SPACE { FirstIsOwnBeforeWrap(w, n); }
  }

  // ----- a run that wraps around -----

  lemma {:induction false} ExecAppend(w: World, run: seq<Step>, s: Step)
    requires Valid(w, run) && Enabled(Exec(w, run), s)
    ensures Valid(w, run + [s]) && Exec(w, run + [s]) == Apply(Exec(w, run), s)
    decreases |run|
  {
    if run == [] {
      assert run + [s] == [s] && [s][1..] == [];
    } else {
      ExecAppend(Apply(w, run[0]), run[1..], s);
      assert (run + [s])[1..] == run[1..] + [s];
    }
  }

  lemma {:induction false} StepReachable(w: World, s: Step)
    requires Reachable(w) && Enabled(w, s)
    ensures Reachable(Apply(w, s))
  {
    var run :| Valid(INIT, run) && w == Exec(INIT, run);
    ExecAppend(INIT, run, s);
  }

  /** Only the very first subscription is left, after `n` registrations. */
  predicate OnlyFirst(w: World, n: nat)
  {
    && w.registrations == n && w.subscriptions == {0}
    && Handlers(w.st) == [Registration(0, 0)] && w.st.nextId == n % ID_SPACE && !w.st.closed
  }

  /** One more subscription comes and goes. */
  lemma {:induction false} Churn(w: World) returns (v: World)
    requires Reachable(w) && 1 <= w.registrations < ID_SPACE && OnlyFirst(w, w.registrations)
    ensures Reachable(v) && OnlyFirst(v, w.registrations + 1)
  {
    var n := w.registrations;
    StepReachable(w, Register(true));
    var u := Apply(w, Register(true));
    Unwrapped(n);
    assert Handlers(u.st) == [Registration(0, 0), Registration(n, n)];
    StepReachable(u, DropSubscription(n));
    v := Apply(u, DropSubscription(n));
    var h := Handlers(u.st);
    assert Position(h, n) == Some(1);
    assert h[..1] + h[2..] == [Registration(0, 0)];
    assert v.subscriptions == {0};
  }

  lemma {:induction false} ChurnOn(n: nat) returns (w: World)
    requires 1 <= n <= ID_SPACE
    ensures Reachable(w) && OnlyFirst(w, n)
  {
    if n == 1 {
      assert Valid(INIT, []) && Exec(INIT, []) == INIT;
      StepReachable(INIT, Register(true));
      w := Apply(INIT, Register(true));
      assert Handlers(w.st) == [] + [Registration(0, 0)];
    } else {
      var before := ChurnOn(n - 1);
      w := Churn(before);
    }
  }

  /**
   The failing inputs. Subscription 0 is kept while 2^64 - 1 others come and go, so the
   next one gets id 0 again. Dropping that one removes the handler of subscription 0;
   dropping subscription 0, no longer listed, then removes the other's.
   */
  lemma {:induction false} DropTakesAnother() returns (w: World, v: World)
    ensures Reachable(w) && {0, ID_SPACE} <= w.subscriptions && v == ApplyDrop(w, ID_SPACE)
    ensures Holds(Handlers(w.st), 0) && Holds(Handlers(w.st), ID_SPACE)
    ensures !Holds(Handlers(v.st), 0) && Holds(Handlers(v.st), ID_SPACE)
    ensures Reachable(v) && 0 in v.subscriptions && Handlers(ApplyDrop(v, 0).st) == []
  {
    var u := ChurnOn(ID_SPACE);
    StepReachable(u, Register(true));
    w := Apply(u, Register(true));
    var h := Handlers(w.st);
    assert h == [Registration(0, 0), Registration(0, ID_SPACE)];
    assert h[0].handler == 0 && h[1].handler == ID_SPACE;
    StepReachable(w, DropSubscription(ID_SPACE));
    v := Apply(w, DropSubscription(ID_SPACE));
    assert Position(h, 0) == Some(0) && h[..0] + h[1..] == [Registration(0, ID_SPACE)];
    assert Handlers(v.st)[0].handler == ID_SPACE;
    assert Position(Handlers(v.st), 0) == Some(0);
  }
}
