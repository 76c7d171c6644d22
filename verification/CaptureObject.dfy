/**
 `CaptureState` as the source writes it: one object whose fields change under the
 state mutex. Each method is the locked part of the source method of that name and
 refines the section that the protocol uses. What a method hands back is what the
 source does after unlocking: whose slot to complete and whose timer was finished.
 */
module CaptureObject {
  import opened Common
  import opened Tickets
  import opened Capture

  class CaptureState {
    const generation: nat
    var epoch: nat
    var revision: nat
    var finished: bool
    var closed: bool
    var nextId: nat
    var active: Option<Active>
    var retained: Option<Retained>
    var activeTimerThreads: nat

    function View(): (s: State)
      reads this
    {
      State(epoch, revision, finished, closed, nextId, active, retained)
    }

    constructor (generation: nat)
      ensures this.generation == generation && View() == INITIAL && activeTimerThreads == 0
      ensures StateInv(View())
    {
      this.generation := generation;
      epoch, revision, finished, closed, nextId := 0, 0, false, false, 0;
      active, retained := None, None;
      activeTimerThreads := 0;
    }

    method ReserveTimer() returns (r: Result<(), CaptureError>)
      modifies this`activeTimerThreads
      ensures r.Ok? <==> old(activeTimerThreads) < MAX_DEADLINE_THREADS
      ensures activeTimerThreads == old(activeTimerThreads) + if r.Ok? then 1 else 0
      ensures r.Err? ==> r.error == Overloaded
    {
      if activeTimerThreads < MAX_DEADLINE_THREADS {
        activeTimerThreads := activeTimerThreads + 1;
        return Ok(());
      }
      return Err(Overloaded);
    }

    /** The admission section of `begin`. */
    method Claim(options: Options) returns (r: Result<nat, CaptureError>)
      requires StateInv(View())
      modifies this`nextId, this`retained, this`active
      ensures StateInv(View())
      ensures match ClaimLocked(old(View()), options)
              case Ok((s, id)) => r == Ok(id) && View() == s
              case Err(e) => r == Err(e) && View() == old(View())
      ensures r.Ok? ==> r.value > old(nextId) && retained == None
    {
      if closed {
        return Err(Closed);
      }
      if !finished || epoch == 0 {
        return Err(Unavailable);
      }
      if active.Some? {
        return Err(Busy);
      }
      var next := CheckedSucc(nextId);
      if next.None? {
        return Err(Scheduler);
      }
      var id := next.value;
      nextId := id;
      retained := None;
      active := Some(Active(id, epoch, revision, options, false, false));
      return Ok(id);
    }

    method AbortUnsubmitted(id: nat) returns (timerFinished: bool)
      requires StateInv(View())
      modifies this`active
      ensures View() == AbortLocked(old(View()), id) && StateInv(View())
      ensures timerFinished <==> IsActive(old(View()), id)
    {
      timerFinished := active.Some? && active.value.id == id;
      if timerFinished {
        active := None;
      }
    }

    /** `complete` is true when the slot must be told `Timeout`; the reservation stays. */
    method Timeout(id: nat, epoch: nat) returns (complete: bool)
      requires StateInv(View())
      modifies this`active
      ensures View() == TimeoutLocked(old(View()), id, epoch) && StateInv(View())
      ensures complete <==> TimeoutHits(old(View()), id, epoch)
      ensures active.Some? <==> old(active).Some?
    {
      complete := active.Some? && active.value.id == id && active.value.epoch == epoch;
      if complete {
        active := Some(active.value.(timedOut := true));
      }
    }

    /** The locked part of `complete`; `alive` is `active.slot.upgrade().is_some()`. */
    method Complete(id: nat, epoch: nat, result: Result<Image, CaptureError>,
                    alive: bool, seen: bool, late: bool) returns (outcome: Option<Outcome>)
      requires StateInv(View())
      modifies this`active, this`retained
      ensures (View(), outcome) == CompleteLocked(old(View()), generation, id, epoch, result, alive, seen, late)
      ensures StateInv(View())
    {
      if active.None? || active.value.id != id {
        return None;
      }
      var a := active.value;
      active := None;
      if closed || !seen {
        return Some(Err(Closed));
      }
      if !finished || this.epoch != epoch || a.epoch != epoch || a.revision != revision || a.abandoned {
        return Some(Err(Cancelled));
      }
      if a.timedOut || late {
        return Some(Err(CaptureError.Timeout));
      }
      match result
      case Err(e) => return Some(Err(e));
      case Ok(image) =>
        if !Acceptable(a.options, image) {
          return Some(Err(TooLarge));
        }
        if alive {
          retained := Some(Retained(id, epoch, a.revision, image.png));
        }
        return Some(Ok(ContentFor(generation, a, epoch, image)));
    }

    /**
     Any epoch is taken; the state stays consistent if it is a new one or the window is
     closed. `interrupted` is the request whose timer is finished and whose slot is completed.
     */
    method Invalidate(epoch: nat, closed: bool) returns (interrupted: Option<nat>)
      requires StateInv(View())
      modifies this`epoch, this`finished, this`closed, this`retained
      ensures View() == InvalidateLocked(old(View()), epoch, closed)
      ensures closed || old(this.closed) || epoch > old(this.epoch) ==> StateInv(View())
      ensures interrupted == if old(active).Some? then Some(old(active).value.id) else None
    {
      this.epoch := epoch;
      finished := false;
      this.closed := this.closed || closed;
      retained := None;
      interrupted := if active.Some? then Some(active.value.id) else None;
    }

    method Close()
      requires StateInv(View())
      modifies this`finished, this`closed, this`retained
      ensures View() == CloseLocked(old(View())) && StateInv(View())
    {
      closed := true;
      finished := false;
      retained := None;
    }

    method Finished(epoch: nat, seen: bool)
      requires StateInv(View())
      modifies this`finished
      ensures View() == FinishedLocked(old(View()), epoch, seen) && StateInv(View())
    {
      if seen && !closed && this.epoch == epoch && epoch != 0 {
        finished := true;
      }
    }

    method ViewportChanged() returns (interrupted: Option<nat>)
      requires StateInv(View())
      modifies this`revision, this`finished, this`closed, this`retained
      ensures View() == ViewportLocked(old(View())) && StateInv(View())
      ensures interrupted == if old(active).Some? && old(revision) < U64_MAX then Some(old(active).value.id) else None
    {
      var next := CheckedSucc(revision);
      if next.None? {
        Close();
        return None;
      }
      revision := next.value;
      retained := None;
      interrupted := if active.Some? then Some(active.value.id) else None;
    }

    method Read(c: Content, offset: nat, seen: bool) returns (r: Result<Chunk, CaptureError>)
      requires StateInv(View())
      ensures r == ReadLocked(View(), generation, c, offset, seen)
      ensures r.Ok? ==> |r.value.bytes| <= MAX_CHUNK_BYTES && (r.value.eof || r.value.nextOffset > offset)
    {
      if !seen || closed {
        return Err(Closed);
      }
      if retained.None? || c.generation != generation
         || !Names(retained.value, c.id, c.epoch, c.revision)
         || epoch != retained.value.epoch || revision != retained.value.revision || !finished {
        return Err(Released);
      }
      var png := retained.value.png;
      if offset > |png| {
        return Err(InvalidOffset);
      }
      var end := Min(offset + MAX_CHUNK_BYTES, |png|);
      return Ok(Chunk(png[offset..end], end, end == |png|));
    }

    method Release(c: Content, seen: bool) returns (r: Result<(), CaptureError>)
      requires StateInv(View())
      modifies this`retained
      ensures (View(), r) == ReleaseLocked(old(View()), generation, c, seen) && StateInv(View())
    {
      if !seen || closed {
        return Err(Closed);
      }
      if c.generation == generation && retained.Some?
         && Names(retained.value, c.id, c.epoch, c.revision) {
        retained := None;
        return Ok(());
      }
      return Err(Released);
    }

    method LeasePng(t: Token, seen: bool) returns (r: Result<seq<byte>, CaptureError>)
      requires StateInv(View())
      ensures r == LeaseLocked(View(), generation, t, seen)
    {
      if !seen || closed {
        return Err(Closed);
      }
      if retained.Some? && t.generation == generation
         && Names(retained.value, t.id, t.epoch, t.revision)
         && t.epoch == epoch && t.revision == revision && finished {
        return Ok(retained.value.png);
      }
      return Err(Released);
    }

    method Abandon(id: nat) returns (timerFinished: bool)
      requires StateInv(View())
      modifies this`active, this`retained
      ensures View() == AbandonLocked(old(View()), id) && StateInv(View())
      ensures timerFinished <==> IsActive(old(View()), id)
      ensures !IsRetained(View(), id)
    {
      timerFinished := active.Some? && active.value.id == id;
      if timerFinished {
        active := Some(active.value.(abandoned := true));
      }
      if retained.Some? && retained.value.id == id {
        retained := None;
      }
    }
  }
}
