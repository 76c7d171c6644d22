/**
 The request side shared by the capture and the clipboard machine: the one-shot
 result slot, the deadline worker and the pool of worker reservations.

 A ticket records everything about one request that is not inside the machine's
 own mutex. `issued`, `pending` and `settled` are history: `issued` lists every
 outcome some thread undertook to write into the slot, `pending` holds those whose
 `Slot::complete` call has not run yet, `settled` says that some outcome was written.
 */
module Tickets {
  import opened Common

  /**
   Where the request is: the four stages of `begin` (Claimed, Timed, Submitted or
   Failed), owned by the host (Held), between taking a success from the slot and
   validating it (Validating), and the two stages of `Drop`.
   */
  datatype Phase<O> =
    | Claimed | Timed | Failed | Submitted
    | Held | Validating(answer: O)
    | Dropping | Gone

  /** The deadline thread: `Firing` has seen the timer unfinished after its wait. */
  datatype Worker = Unstarted | Waiting | Firing | Done | Exited

  datatype Ticket<O> = Ticket(
    phase: Phase<O>,
    expired: bool,
    disarmed: bool,
    worker: Worker,
    slot: Option<O>,
    delivered: bool,
    settled: bool,
    pending: multiset<O>,
    issued: seq<O>)

  function Opened<O(==)>(): Ticket<O>
  {
    Ticket(Claimed, false, false, Unstarted, None, false, false, multiset{}, [])
  }

  predicate Opening<O>(p: Phase<O>)
  {
    p.Claimed? || p.Timed? || p.Failed? || p.Submitted?
  }

  /** `begin` has not (or not successfully) handed the operation to the native side. */
  predicate Unsubmitted<O>(p: Phase<O>)
  {
    p.Claimed? || p.Timed? || p.Failed?
  }

  /** `Weak<Slot>::upgrade` succeeds: the request or a completing thread owns the slot. */
  predicate SlotAlive<O>(t: Ticket<O>)
  {
    !t.phase.Gone? || t.pending != multiset{}
  }

  /** A locked section upgraded the slot and will complete it after unlocking. */
  function Issue<O>(t: Ticket<O>, o: O): Ticket<O>
  {
    if SlotAlive(t) then t.(pending := t.pending + multiset{o}, issued := t.issued + [o]) else t
  }

  /** `DeadlineTimer::finish` */
  function Disarm<O>(t: Ticket<O>): Ticket<O>
  {
    t.(disarmed := true)
  }

  /** What `Slot::complete` leaves in the slot: the first outcome stays until it is polled. */
  function Record<O>(slot: Option<O>, o: O): Option<O>
  {
    if slot.Some? then slot else Some(o)
  }

  /** `Slot::complete` by a thread that undertook to record `o`. */
  function Settle<O(==)>(t: Ticket<O>, o: O): Ticket<O>
    requires o in t.pending
  {
    t.(pending := t.pending - multiset{o}, slot := Record(t.slot, o), settled := t.settled || t.slot.None?)
  }

  /** `Slot(Mutex<SlotState>)` without its waker. */
  class Slot<O> {
    var result: Option<O>

    constructor ()
      ensures result == None
    {
      result := None;
    }

    method Complete(o: O)
      modifies this
      ensures result == Record(old(result), o)
    {
      if result.Some? {
        return;
      }
      result := Some(o);
    }

    /** Takes the outcome, so that a later completion may be recorded again. */
    method Poll() returns (r: Option<O>)
      modifies this
      ensures r == old(result) && result == None
    {
      r := result;
      result := None;
    }
  }

  /** `wait_timeout_while` returns: either the timer was finished or the deadline passed. */
  predicate CanWake<O>(t: Ticket<O>)
  {
    t.worker.Waiting? && (t.disarmed || t.expired)
  }

  function Wake<O>(t: Ticket<O>): Ticket<O>
  {
    t.(worker := if t.disarmed then Done else Firing)
  }

  /** The deadline thread only moves on. */
  function Age(x: Worker): nat
  {
    match x
    case Unstarted => 0
    case Waiting => 1
    case Firing => 2
    case Done => 3
    case Exited => 4
  }

  /** From `t` to `u` nothing that happened to the request is undone. */
  ghost predicate Older<O(!new)>(t: Ticket<O>, u: Ticket<O>)
  {
    && t.issued <= u.issued && Age(t.worker) <= Age(u.worker)
    && (t.expired ==> u.expired) && (t.settled ==> u.settled) && (t.delivered ==> u.delivered)
  }

  /** The bookkeeping every ticket keeps, whatever the outcomes mean. */
  ghost predicate Ledger<O>(t: Ticket<O>)
  {
    && (forall o :: o in t.pending ==> o in t.issued)
    && (t.slot.Some? ==> t.settled && t.slot.value in t.issued)
    && (t.issued != [] ==> t.settled || t.pending != multiset{})
    && (t.settled ==> t.issued != [])
    && (t.settled && !t.delivered ==> t.slot.Some?)
    && (t.delivered ==> t.settled)
    && (t.phase.Validating? ==> t.phase.answer in t.issued && t.delivered)
    && (Opening(t.phase) || t.phase.Dropping? ==> !t.delivered)
  }

  lemma {:induction false} IssueKeepsLedger<O>(t: Ticket<O>, o: O)
    requires Ledger(t)
    ensures Ledger(Issue(t, o))
    ensures SlotAlive(t) ==> o in Issue(t, o).pending
  {
    var u := Issue(t, o);
    if SlotAlive(t) {
      assert o in multiset{o};
      assert o in u.pending;
    }
  }

  lemma {:induction false} SettleKeepsLedger<O>(t: Ticket<O>, o: O)
    requires Ledger(t) && o in t.pending
    ensures Ledger(Settle(t, o))
    ensures Settle(t, o).settled && Settle(t, o).issued == t.issued
  {
    assert forall p :: p in t.pending - multiset{o} ==> p in t.pending;
  }

  // ----- reservations of deadline threads -----

  const MAX_DEADLINE_THREADS: nat := 8

  /**
   `count` is the atomic counter; `loose` counts reservations held by calls of
   `begin` that have no request yet; `holders` are the requests that hold one.
   */
  datatype Pool = Pool(count: nat, loose: nat, holders: set<nat>)

  ghost predicate PoolInv(p: Pool)
  {
    p.count == p.loose + |p.holders| && p.count <= MAX_DEADLINE_THREADS
  }

  /** `reserve_timer`'s `try_update` would succeed. */
  predicate HasRoom(p: Pool)
  {
    p.count < MAX_DEADLINE_THREADS
  }

  function Reserve(p: Pool): Pool
  {
    p.(count := p.count + 1, loose := p.loose + 1)
  }

  /** A loose reservation is dropped because the rest of `begin` failed. */
  function Forfeit(p: Pool): Pool
    requires p.loose > 0 && p.count > 0
  {
    p.(count := p.count - 1, loose := p.loose - 1)
  }

  /** A loose reservation now belongs to request `id`. */
  function Attach(p: Pool, id: nat): Pool
    requires p.loose > 0
  {
    p.(loose := p.loose - 1, holders := p.holders + {id})
  }

  /** `TimerReservation::drop` */
  function Release(p: Pool, id: nat): Pool
    requires p.count > 0
  {
    p.(count := p.count - 1, holders := p.holders - {id})
  }

  lemma {:induction false} PoolSteps(p: Pool, id: nat)
    requires PoolInv(p)
    ensures HasRoom(p) ==> PoolInv(Reserve(p))
    ensures p.loose > 0 ==> p.count > 0 && PoolInv(Forfeit(p))
    ensures p.loose > 0 && id !in p.holders ==> PoolInv(Attach(p, id))
    ensures id in p.holders ==> p.count > 0 && PoolInv(Release(p, id))
  {
    if id in p.holders {
      assert p.holders == (p.holders - {id}) + {id};
    }
  }
}
