/**
 Values of the clipboard machine and its critical sections, with the same reading of
 `seen` and `late` as in the capture machine.
 */
module Clipboard {
  import opened Common
  import Capture

  type Token = Capture.Token

  datatype ClipboardError =
    | Unsupported | Released | Closed | Busy | Cancelled | Timeout
    | Rejected | Contended | Readback | InvalidData | Scheduler | Overloaded
    | Os(operation: string, code: nat)

  type Answer = Result<(), ClipboardError>

  datatype Active = Active(id: nat, token: Token, cancelled: bool, writing: bool, timedOut: bool)

  datatype State = State(closed: bool, nextId: nat, active: Option<Active>)

  const INITIAL: State := State(false, 0, None)

  predicate IsActive(s: State, id: nat)
  {
    s.active.Some? && s.active.value.id == id
  }

  /** `map_capture_error` */
  function MapCaptureError(e: Capture.CaptureError): ClipboardError
  {
    if e.Closed? then Closed else Released
  }

  /** `claim` */
  function ClaimLocked(s: State, token: Token, seen: bool): Result<(State, nat), ClipboardError>
  {
    if s.closed || !seen then Err(Closed)
    else if s.active.Some? then Err(Busy)
    else match CheckedSucc(s.nextId)
      case None => Err(Scheduler)
      case Some(id) => Ok((s.(nextId := id, active := Some(Active(id, token, false, false, false))), id))
  }

  /** `abort_unsubmitted` */
  function AbortLocked(s: State, id: nat): State
  {
    if IsActive(s, id) then s.(active := None) else s
  }

  /** `timeout` */
  function TimeoutLocked(s: State, id: nat): State
  {
    if IsActive(s, id) then s.(active := Some(s.active.value.(timedOut := true))) else s
  }

  /** `begin_write`: both mutexes are held, so the token check and the flag are one step. */
  function BeginWriteLocked(s: State, cap: Capture.State, generation: nat, id: nat,
                            seen: bool, late: bool): (State, Answer)
  {
    if s.closed || !seen then (s, Err(Closed))
    else if !IsActive(s, id) then (s, Err(Cancelled))
    else
      var a := s.active.value;
      if a.cancelled then (s, Err(Cancelled))
      else if a.timedOut || late then (s, Err(Timeout))
      else if a.writing then (s, Err(Busy))
      else match Capture.GuardLocked(cap, generation, a.token, seen)
        case Err(e) => (s, Err(MapCaptureError(e)))
        case Ok(_) => (s.(active := Some(a.(writing := true))), Ok(()))
  }

  /** The locked part of `complete`: the native operation has returned. */
  function TakeLocked(s: State, id: nat): (State, Option<Active>)
  {
    if IsActive(s, id) then (s.(active := None), s.active) else (s, None)
  }

  /** What `complete` answers after unlocking, given a fresh lease of the token. */
  function AnswerFor(a: Active, sawClosed: bool, late: bool,
                     lease: Result<seq<byte>, Capture.CaptureError>, result: Answer): Answer
  {
    if sawClosed then Err(Closed)
    else if a.cancelled then Err(Cancelled)
    else if a.timedOut || late then Err(Timeout)
    else match lease
      case Err(e) => Err(MapCaptureError(e))
      case Ok(_) => result
  }

  /** `cancel` and the locked part of `abandon` */
  function CancelLocked(s: State, id: nat): State
  {
    if IsActive(s, id) then s.(active := Some(s.active.value.(cancelled := true))) else s
  }

  /** `close_silent` */
  function CloseSilentLocked(s: State): State
  {
    var t := s.(closed := true);
    if t.active.Some? then t.(active := Some(t.active.value.(cancelled := true))) else t
  }

  ghost predicate StateInv(s: State)
  {
    && s.nextId <= U64_MAX
    && (s.active.Some? ==> 1 <= s.active.value.id <= s.nextId)
    && (s.closed && s.active.Some? ==> s.active.value.cancelled)
  }
}
