/**
 The bounded window command queue: what each critical section of `WindowHandle` does
 to the state behind its mutex, and which wakeup the caller runs after unlocking.
 */
module WindowCommands {
  import opened Common

  const MAX_QUEUED: nat := 256
  const MAX_TITLE_BYTES: nat := 16 * 1024
  const MAX_QUEUED_TITLE_BYTES: nat := 64 * 1024

  datatype Rgba = Rgba(r: byte, g: byte, b: byte, a: byte)

  datatype Command =
    | SetTitle(title: seq<byte>)
    | SetBackground(color: Rgba)
    | SetSize(width: u32, height: u32)
    | Minimize | Maximize | Unmaximize
    | SetFullscreen(fullscreen: bool)
    | Center | Focus | CloseWindow | StartDrag
    | SetAlwaysOnTop(onTop: bool)

  datatype SendError =
    | QueueFull
    | TitleTooLarge(size: nat)
    | TitleQueueFull(queued: nat, requested: nat)
    | Closed

  /** `background` is the shared live colour cell, when there is one; `wakeup` names the installed callback. */
  datatype State = State(
    queue: Option<seq<Command>>, background: Option<Option<Rgba>>, wakeup: Option<nat>,
    titleBytes: nat, wakeScheduled: bool, closed: bool)

  function Initial(background: Option<Option<Rgba>>): State
  {
    State(None, background, None, 0, false, false)
  }

  function Queued(s: State): seq<Command>
  {
    if s.queue.Some? then s.queue.value else []
  }

  /** `normalize_command`: the title's byte count; the text itself is kept. */
  function TitleSize(c: Command): nat
  {
    if c.SetTitle? then |c.title| else 0
  }

  function TitleBytes(q: seq<Command>): nat
  {
    if q == [] then 0 else TitleBytes(q[..|q| - 1]) + TitleSize(q[|q| - 1])
  }

  /** Byte accounting, limits, and wakeups: true in every state the sections can reach. */
  predicate StateInv(s: State)
  {
    && s.titleBytes == TitleBytes(Queued(s)) <= MAX_QUEUED_TITLE_BYTES
    && |Queued(s)| <= MAX_QUEUED
    && (s.wakeScheduled <==> Queued(s) != [] && s.wakeup.Some?)
    && (s.closed ==> Queued(s) == [] && s.wakeup.None?)
  }

  /** Why a command is refused, if it is. */
  function Refusal(s: State, c: Command): Option<SendError>
  {
    if s.closed then Some(Closed)
    else if TitleSize(c) > MAX_TITLE_BYTES then Some(TitleTooLarge(TitleSize(c)))
    else if |Queued(s)| >= MAX_QUEUED then Some(QueueFull)
    else if TitleBytes(Queued(s)) + TitleSize(c) > MAX_QUEUED_TITLE_BYTES then
      Some(TitleQueueFull(TitleBytes(Queued(s)), TitleSize(c)))
    else None
  }

  /** An accepted command joins the end of the queue and schedules a wakeup if none is pending. */
  function SendLocked(s: State, c: Command): State
  {
    s.(queue := Some(Queued(s) + [c]),
       titleBytes := s.titleBytes + TitleSize(c),
       background := if c.SetBackground? && s.background.Some? then Some(Some(c.color)) else s.background,
       wakeScheduled := s.wakeScheduled || s.wakeup.Some?)
  }

  function SendNotifies(s: State): Option<nat>
  {
    if s.wakeScheduled then None else s.wakeup
  }

  function InstallLocked(s: State, wakeup: nat): State
  {
    if s.closed then s
    else s.(wakeup := Some(wakeup), wakeScheduled := s.wakeScheduled || Queued(s) != [])
  }

  function InstallNotifies(s: State, wakeup: nat): Option<nat>
  {
    if !s.closed && Queued(s) != [] then Some(wakeup) else None
  }

  function DrainLocked(s: State): State
  {
    s.(queue := None, titleBytes := 0, wakeScheduled := false)
  }

  function CloseLocked(s: State): State
  {
    s.(queue := None, titleBytes := 0, wakeScheduled := false, wakeup := None, closed := true)
  }

  lemma {:induction false} TitleBytesAppend(q: seq<Command>, c: Command)
    ensures TitleBytes(q + [c]) == TitleBytes(q) + TitleSize(c)
  {
    assert (q + [c])[..|q|] == q;
  }

  /** Each section keeps the accounting, the limits and the wakeup rule. */
  lemma {:induction false} SectionsKeepStateInv(s: State, c: Command, wakeup: nat)
    requires StateInv(s)
    ensures Refusal(s, c).None? ==> StateInv(SendLocked(s, c))
    ensures StateInv(InstallLocked(s, wakeup)) && StateInv(DrainLocked(s)) && StateInv(CloseLocked(s))
  {
    TitleBytesAppend(Queued(s), c);
  }

  /** A command is accepted exactly if the handle is open and every limit leaves room for it. */
  lemma {:induction false} AcceptedExactly(s: State, c: Command)
    requires StateInv(s)
    ensures Refusal(s, c).None? <==>
            && !s.closed && |Queued(s)| < 256
            && (c.SetTitle? ==> |c.title| <= 16_384 && s.titleBytes + |c.title| <= 65_536)
    ensures s.closed ==> Refusal(s, c) == Some(Closed)
    ensures !s.closed && c.SetTitle? && |c.title| > 16_384 ==> Refusal(s, c) == Some(TitleTooLarge(|c.title|))
    ensures !s.closed && !(c.SetTitle? && |c.title| > 16_384) && |Queued(s)| == 256 ==> Refusal(s, c) == Some(QueueFull)
    ensures !s.closed && c.SetTitle? && |c.title| <= 16_384 && |Queued(s)| < 256 && s.titleBytes + |c.title| > 65_536 ==>
              Refusal(s, c) == Some(TitleQueueFull(s.titleBytes, |c.title|))
  {
  }

  // ----- the object -----

  class WindowHandle {
    var queue: Option<seq<Command>>
    var background: Option<Option<Rgba>>
    var wakeup: Option<nat>
    var titleBytes: nat
    var wakeScheduled: bool
    var closed: bool

    function View(): (s: State)
      reads this
    {
      State(queue, background, wakeup, titleBytes, wakeScheduled, closed)
    }

    constructor (background: Option<Option<Rgba>>)
      ensures View() == Initial(background) && StateInv(View())
    {
      this.background := background;
      queue, wakeup, titleBytes, wakeScheduled, closed := None, None, 0, false, false;
    }

    method SetWakeup(callback: nat) returns (notify: Option<nat>)
      requires StateInv(View())
      modifies this`wakeup, this`wakeScheduled
      ensures View() == InstallLocked(old(View()), callback) && StateInv(View())
      ensures notify == InstallNotifies(old(View()), callback)
    {
      if closed { return None; }
      wakeup := Some(callback);
      var hasBacklog := queue.Some? && queue.value != [];
      if hasBacklog {
        wakeScheduled := true;
        return Some(callback);
      }
      return None;
    }

    method DrainCommands() returns (drained: seq<Command>)
      requires StateInv(View())
      modifies this`queue, this`titleBytes, this`wakeScheduled
      ensures View() == DrainLocked(old(View())) && StateInv(View())
      ensures drained == Queued(old(View()))
    {
      wakeScheduled := false;
      titleBytes := 0;
      drained := if queue.Some? then queue.value else [];
      queue := None;
    }

    /** The part of `send` that runs once the command has passed every check. */
    method Enqueue(c: Command, size: nat) returns (notify: Option<nat>)
      requires size == TitleSize(c)
      modifies this`queue, this`titleBytes, this`background, this`wakeScheduled
      ensures View() == SendLocked(old(View()), c)
      ensures notify == SendNotifies(old(View()))
    {
      titleBytes := titleBytes + size;
      if c.SetBackground? && background.Some? {
        background := Some(Some(c.color));
      }
      queue := Some((if queue.Some? then queue.value else []) + [c]);
      notify := None;
      if !wakeScheduled && wakeup.Some? {
        wakeScheduled := true;
        notify := wakeup;
      }
    }

    /** The checks of `send`. The title budget is a `usize` subtraction: it is proved not to underflow. */
    method Check(c: Command, size: nat) returns (refused: Option<SendError>)
      requires StateInv(View()) && size == TitleSize(c)
      ensures refused == Refusal(View(), c)
    {
      if closed { return Some(Closed); }
      if c.SetTitle? && size > MAX_TITLE_BYTES { return Some(TitleTooLarge(size)); }
      var length := if queue.Some? then |queue.value| else 0;
      if length >= MAX_QUEUED { return Some(QueueFull); }
      var budget: nat := MAX_QUEUED_TITLE_BYTES - titleBytes;
      if size > budget { return Some(TitleQueueFull(titleBytes, size)); }
      return None;
    }

    method Send(c: Command) returns (refused: Option<SendError>, notify: Option<nat>)
      requires StateInv(View())
      modifies this`queue, this`titleBytes, this`background, this`wakeScheduled
      ensures StateInv(View())
      ensures refused == Refusal(old(View()), c)
      ensures View() == (if refused.None? then SendLocked(old(View()), c) else old(View()))
      ensures notify == (if refused.None? then SendNotifies(old(View())) else None)
    {
      SectionsKeepStateInv(View(), c, 0);
      var size := if c.SetTitle? then |c.title| else 0;
      notify := None;
      refused := Check(c, size);
      if refused.None? { notify := Enqueue(c, size); }
    }

    method Close()
      modifies this`queue, this`titleBytes, this`wakeScheduled, this`wakeup, this`closed
      ensures View() == CloseLocked(old(View())) && StateInv(View())
    {
      closed := true;
      wakeScheduled := false;
      titleBytes := 0;
      wakeup := None;
      queue := None;
    }
  }
}
