/**
 The copy-on-write handler registry: what each critical section does to the handler
 list, and the dispatch loop over a snapshot of it.
 */
module EventRegistry {
  import opened Common

  const MAX_HANDLERS: nat := 256

  /** Number of distinct `u64` ids; `next_id` wraps around after the last one. */
  const ID_SPACE: nat := U64_MAX + 1

  datatype Response = Continue | PreventDefault

  datatype RegistrationError = Capacity | Closed

  /** `handler` is the identity of the boxed closure, which the registry never inspects. */
  datatype Registration = Registration(id: nat, handler: nat)

  datatype State = State(handlers: Option<seq<Registration>>, nextId: nat, closed: bool)

  const INITIAL := State(None, 0, false)

  function Handlers(s: State): seq<Registration>
  {
    if s.handlers.Some? then s.handlers.value else []
  }

  /** The list is absent rather than empty, bounded, and absent for good after close. */
  predicate StateInv(s: State)
  {
    && (s.handlers.Some? ==> s.handlers.value != [])
    && |Handlers(s)| <= MAX_HANDLERS
    && s.nextId < ID_SPACE
    && (s.closed ==> s.handlers.None?)
  }

  function RegistrationRefusal(s: State): Option<RegistrationError>
  {
    if s.closed then Some(Closed)
    else if |Handlers(s)| >= MAX_HANDLERS then Some(Capacity)
    else None
  }

  function RegisterLocked(s: State, handler: nat): State
  {
    s.(nextId := (s.nextId + 1) % ID_SPACE,
       handlers := Some(Handlers(s) + [Registration(s.nextId, handler)]))
  }

  /** `iter().position(|entry| entry.id == id)` */
  function Position(handlers: seq<Registration>, id: nat): (r: Option<nat>)
    ensures match r
            case Some(i) => i < |handlers| && handlers[i].id == id && forall k :: 0 <= k < i ==> handlers[k].id != id
            case None => forall k :: 0 <= k < |handlers| ==> handlers[k].id != id
  {
    if handlers == [] then None
    else if handlers[0].id == id then Some(0)
    else match Position(handlers[1..], id)
      case None => None
      case Some(i) => Some(i + 1)
  }

  function RemoveLocked(s: State, id: nat): State
  {
    match Position(Handlers(s), id)
    case None => s
    case Some(i) =>
      var next := Handlers(s)[..i] + Handlers(s)[i + 1..];
      s.(handlers := if next == [] then None else Some(next))
  }

  function CloseLocked(s: State): State
  {
    s.(closed := true, handlers := None)
  }

  /** A handler is accepted exactly if the registry is open and holds fewer than 256. */
  lemma {:induction false} RegisteredExactlyIf(s: State, handler: nat)
    requires StateInv(s)
    ensures RegistrationRefusal(s).None? <==> !s.closed && |Handlers(s)| < 256
    ensures s.closed ==> RegistrationRefusal(s) == Some(Closed)
    ensures !s.closed && |Handlers(s)| == 256 ==> RegistrationRefusal(s) == Some(Capacity)
    ensures RegistrationRefusal(s).None? ==>
              && Handlers(RegisterLocked(s, handler)) == Handlers(s) + [Registration(s.nextId, handler)]
              && (RegisterLocked(s, handler).nextId == if s.nextId == 0xFFFF_FFFF_FFFF_FFFF then 0 else s.nextId + 1)
  {
  }

  // ----- the object -----

  class EventRegistry {
    var handlers: Option<seq<Registration>>
    var nextId: nat
    var closed: bool

    function View(): (s: State)
      reads this
    {
      State(handlers, nextId, closed)
    }

    constructor ()
      ensures View() == INITIAL && StateInv(View())
    {
      handlers, nextId, closed := None, 0, false;
    }

    method Register(handler: nat) returns (r: Result<nat, RegistrationError>)
      requires StateInv(View())
      modifies this`handlers, this`nextId
      ensures StateInv(View())
      ensures match RegistrationRefusal(old(View()))
              case Some(e) => r == Err(e) && View() == old(View())
              case None => r == Ok(old(nextId)) && View() == RegisterLocked(old(View()), handler)
    {
      if closed { return Err(Closed); }
      var count := if handlers.Some? then |handlers.value| else 0;
      if count >= MAX_HANDLERS { return Err(Capacity); }
      var id := nextId;
      nextId := if nextId == U64_MAX then 0 else nextId + 1;
      var next := [];
      if handlers.Some? { next := handlers.value; }
      handlers := Some(next + [Registration(id, handler)]);
      return Ok(id);
    }

    method Remove(id: nat)
      requires StateInv(View())
      modifies this`handlers
      ensures View() == RemoveLocked(old(View()), id) && StateInv(View())
    {
      if handlers.None? { return; }
      var index := Position(handlers.value, id);
      if index.None? { return; }
      if |handlers.value| == 1 {
        handlers := None;
      } else {
        var next := handlers.value[..index.value] + handlers.value[index.value + 1..];
        handlers := Some(next);
      }
    }

    /** The snapshot a dispatch runs on, taken under the lock. */
    method Snapshot() returns (snapshot: seq<Registration>)
      requires StateInv(View())
      ensures snapshot == Handlers(View())
    {
      if closed || handlers.None? { return []; }
      return handlers.value;
    }

    method Close()
      modifies this`closed, this`handlers
      ensures View() == CloseLocked(old(View()))
      ensures old(StateInv(View())) ==> StateInv(View())
    {
      closed := true;
      handlers := None;
    }
  }

  /** The unlocked part of `dispatch`: every handler answers once, in order, even after one cancels. */
  method RunSnapshot(snapshot: seq<Registration>, answer: Registration -> Response)
    returns (response: Response, called: seq<Registration>)
    ensures called == snapshot
    ensures response == PreventDefault <==> exists r :: r in snapshot && answer(r) == PreventDefault
  {
    response, called := Continue, [];
    for i := 0 to |snapshot|
      invariant called == snapshot[..i]
      invariant response == PreventDefault <==> exists k :: 0 <= k < i && answer(snapshot[k]) == PreventDefault
    {
      called := called + [snapshot[i]];
      if answer(snapshot[i]) == PreventDefault { response := PreventDefault; }
    }
  }
}
