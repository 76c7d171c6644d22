/** `ClipboardState` as one object whose fields change under its mutex. */
module ClipboardObject {
  import opened Common
  import opened Clipboard
  import Capture
  import CaptureObject

  class ClipboardState {
    const capture: CaptureObject.CaptureState
    var closed: bool
    var nextId: nat
    var active: Option<Active>

    function View(): (s: State)
      reads this
    {
      State(closed, nextId, active)
    }

    constructor (capture: CaptureObject.CaptureState)
      ensures this.capture == capture && View() == INITIAL && StateInv(View())
    {
      this.capture := capture;
      closed, nextId, active := false, 0, None;
    }

    method Claim(token: Token, seen: bool) returns (r: Result<nat, ClipboardError>)
      requires StateInv(View())
      modifies this`nextId, this`active
      ensures StateInv(View())
      ensures match ClaimLocked(old(View()), token, seen)
              case Ok((s, id)) => r == Ok(id) && View() == s
              case Err(e) => r == Err(e) && View() == old(View())
    {
      if closed || !seen {
        return Err(Closed);
      }
      if active.Some? {
        return Err(Busy);
      }
      var next := CheckedSucc(nextId);
      if next.None? {
        return Err(Scheduler);
      }
      nextId := next.value;
      active := Some(Active(nextId, token, false, false, false));
      return Ok(nextId);
    }

    method AbortUnsubmitted(id: nat) returns (timerFinished: bool)
      requires StateInv(View())
      modifies this`active
      ensures View() == AbortLocked(old(View()), id) && StateInv(View())
      ensures timerFinished <==> IsActive(old(View()), id)
    {
      timerFinished := active.Some? && active.value.id == id;
      if timerFinished {
        active := None;
      }
    }

    method Timeout(id: nat) returns (complete: bool)
      requires StateInv(View())
      modifies this`active
      ensures View() == TimeoutLocked(old(View()), id) && StateInv(View())
      ensures complete <==> IsActive(old(View()), id)
    {
      complete := active.Some? && active.value.id == id;
      if complete {
        active := Some(active.value.(timedOut := true));
      }
    }

    /** Admission immediately before the native mutation; it cannot be retracted afterwards. */
    method BeginWrite(id: nat, seen: bool, late: bool) returns (r: Answer)
      requires StateInv(View()) && Capture.StateInv(capture.View())
      modifies this`active
      ensures (View(), r) == BeginWriteLocked(old(View()), capture.View(), capture.generation, id, seen, late)
      ensures StateInv(View())
      ensures r.Ok? ==> capture.retained.Some? && active.Some?
                        && active.value.token == Capture.Token(capture.generation, capture.retained.value.id, capture.epoch, capture.revision)
    {
      if closed || !seen {
        return Err(Closed);
      }
      if active.None? || active.value.id != id {
        return Err(Cancelled);
      }
      var a := active.value;
      if a.cancelled {
        return Err(Cancelled);
      }
      if a.timedOut || late {
        return Err(ClipboardError.Timeout);
      }
      if a.writing {
        return Err(Busy);
      }
      var guard := Capture.GuardLocked(capture.View(), capture.generation, a.token, seen);
      if guard.Err? {
        return Err(MapCaptureError(guard.error));
      }
      active := Some(a.(writing := true));
      return Ok(());
    }

    /** The locked part of `complete`: takes the operation out and reads whether the window is closed. */
    method Take(id: nat, seen: bool) returns (taken: Option<Active>, sawClosed: bool)
      requires StateInv(View())
      modifies this`active
      ensures (View(), taken) == TakeLocked(old(View()), id) && StateInv(View())
      ensures sawClosed == (closed || !seen)
    {
      sawClosed := closed || !seen;
      taken := None;
      if active.Some? && active.value.id == id {
        taken := active;
        active := None;
      }
    }

    /** The rest of `complete`, in a state that may have changed since: the answer from a fresh lease. */
    method Reply(a: Active, sawClosed: bool, late: bool, seen: bool, result: Answer) returns (answer: Answer)
      requires Capture.StateInv(capture.View())
      ensures answer == AnswerFor(a, sawClosed, late,
                                  Capture.LeaseLocked(capture.View(), capture.generation, a.token, seen), result)
      ensures !sawClosed && !a.cancelled && !a.timedOut && !late && seen && !capture.closed && capture.retained.Some?
              && a.token == Capture.Token(capture.generation, capture.retained.value.id, capture.epoch, capture.revision)
              ==> answer == result
      ensures answer.Ok? ==>
                && result.Ok? && !sawClosed && !a.cancelled && !a.timedOut && !late && capture.retained.Some?
                && a.token == Capture.Token(capture.generation, capture.retained.value.id, capture.epoch, capture.revision)
    {
      if sawClosed {
        return Err(Closed);
      }
      if a.cancelled {
        return Err(Cancelled);
      }
      if a.timedOut || late {
        return Err(ClipboardError.Timeout);
      }
      var lease := capture.LeasePng(a.token, seen);
      if lease.Err? {
        return Err(MapCaptureError(lease.error));
      }
      return result;
    }

    method Cancel(id: nat) returns (complete: bool)
      requires StateInv(View())
      modifies this`active
      ensures View() == CancelLocked(old(View()), id) && StateInv(View())
      ensures complete <==> IsActive(old(View()), id)
    {
      complete := active.Some? && active.value.id == id;
      if complete {
        active := Some(active.value.(cancelled := true));
      }
    }

    /** Retires silently: no slot is completed and no timer finished. */
    method CloseSilent()
      requires StateInv(View())
      modifies this`closed, this`active
      ensures View() == CloseSilentLocked(old(View())) && StateInv(View())
    {
      closed := true;
      if active.Some? {
        active := Some(active.value.(cancelled := true));
      }
    }
  }
}
