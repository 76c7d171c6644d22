/**
 Values of the capture machine and its critical sections.

 Every function whose name ends in `Locked` is the effect of one section executed
 under the state mutex. Two facts read from outside the mutex are parameters:
 `seen` is what the section read from the host lifetime, `late` whether its clock
 reading was past the deadline.
 */
module Capture {
  import opened Common

  const MAX_WIDTH: nat := 1600
  const MAX_HEIGHT: nat := 1200
  const MAX_RASTER_BYTES: nat := 1600 * 1200 * 4
  const MAX_PNG_BYTES: nat := 12 * 1024 * 1024
  const MAX_CHUNK_BYTES: nat := 20 * 1024

  datatype Options = Options(maxWidth: nat, maxHeight: nat, maxPngBytes: nat)

  datatype CaptureError =
    | InvalidOptions | Busy | Unavailable | Closed | Cancelled | Timeout
    | Released | InvalidOffset | Incomplete | TooLarge
    | Native(message: string) | NativeCode(code: int)
    | Scheduler | Overloaded | Unsupported

  /** Opaque metadata of a retained PNG, handed to the host. */
  datatype Content = Content(
    generation: nat, id: nat, epoch: nat, revision: nat,
    width: nat, height: nat, pngBytes: nat)

  datatype Token = Token(generation: nat, id: nat, epoch: nat, revision: nat)

  function TokenOf(c: Content): Token
  {
    Token(c.generation, c.id, c.epoch, c.revision)
  }

  type Outcome = Result<Content, CaptureError>

  /** What the native callback produces before any check. */
  datatype Image = Image(width: u32, height: u32, png: seq<byte>)

  datatype Active = Active(
    id: nat, epoch: nat, revision: nat, options: Options,
    abandoned: bool, timedOut: bool)

  datatype Retained = Retained(id: nat, epoch: nat, revision: nat, png: seq<byte>)

  datatype State = State(
    epoch: nat, revision: nat, finished: bool, closed: bool,
    nextId: nat, active: Option<Active>, retained: Option<Retained>)

  const INITIAL: State := State(0, 0, false, false, 0, None, None)

  predicate IsActive(s: State, id: nat)
  {
    s.active.Some? && s.active.value.id == id
  }

  predicate IsRetained(s: State, id: nat)
  {
    s.retained.Some? && s.retained.value.id == id
  }

  /** `u32::to_be_bytes` */
  function BigEndian32(n: u32): seq<byte>
  {
    [(n / 0x100_0000) as byte, (n / 0x1_0000 % 0x100) as byte,
     (n / 0x100 % 0x100) as byte, (n % 0x100) as byte]
  }

  const PNG_SIGNATURE: seq<byte> := [0x89, 0x50, 0x4E, 0x47, 0x0D, 0x0A, 0x1A, 0x0A]

  /** The checks on a native image before it is retained. */
  predicate Acceptable(options: Options, image: Image)
  {
    && 0 < image.width <= options.maxWidth
    && 0 < image.height <= options.maxHeight
    && image.width * image.height * 4 <= MAX_RASTER_BYTES
    && 24 <= |image.png| <= options.maxPngBytes
    && PNG_SIGNATURE <= image.png
    && image.png[16..20] == BigEndian32(image.width)
    && image.png[20..24] == BigEndian32(image.height)
  }

  // ----- critical sections -----

  /** The admission section of `begin`. */
  function ClaimLocked(s: State, options: Options): Result<(State, nat), CaptureError>
  {
    if s.closed then Err(Closed)
    else if !s.finished || s.epoch == 0 then Err(Unavailable)
    else if s.active.Some? then Err(Busy)
    else match CheckedSucc(s.nextId)
      case None => Err(Scheduler)
      case Some(id) =>
        Ok((s.(nextId := id, retained := None,
               active := Some(Active(id, s.epoch, s.revision, options, false, false))), id))
  }

  /** `abort_unsubmitted` */
  function AbortLocked(s: State, id: nat): State
  {
    if IsActive(s, id) then s.(active := None) else s
  }

  predicate TimeoutHits(s: State, id: nat, epoch: nat)
  {
    IsActive(s, id) && s.active.value.epoch == epoch
  }

  /** `timeout`: the native reservation stays. */
  function TimeoutLocked(s: State, id: nat, epoch: nat): State
  {
    if TimeoutHits(s, id, epoch) then s.(active := Some(s.active.value.(timedOut := true))) else s
  }

  /** `current`: would a result computed now still be wanted? */
  predicate CurrentLocked(s: State, id: nat, epoch: nat, seen: bool, late: bool)
  {
    && seen && !s.closed && s.finished && s.epoch == epoch
    && IsActive(s, id)
    && s.active.value.revision == s.revision
    && !s.active.value.abandoned && !s.active.value.timedOut && !late
  }

  function ContentFor(generation: nat, a: Active, epoch: nat, image: Image): Content
  {
    Content(generation, a.id, epoch, a.revision, image.width, image.height, |image.png|)
  }

  /** The section of `complete`; `alive` is whether the request's slot can be upgraded. */
  function CompleteLocked(s: State, generation: nat, id: nat, epoch: nat,
                          result: Result<Image, CaptureError>,
                          alive: bool, seen: bool, late: bool): (State, Option<Outcome>)
  {
    if !IsActive(s, id) then (s, None)
    else
      var a := s.active.value;
      var t := s.(active := None);
      if s.closed || !seen then (t, Some(Err(Closed)))
      else if !s.finished || s.epoch != epoch || a.epoch != epoch
           || a.revision != s.revision || a.abandoned then (t, Some(Err(Cancelled)))
      else if a.timedOut || late then (t, Some(Err(Timeout)))
      else match result
        case Err(e) => (t, Some(Err(e)))
        case Ok(image) =>
          if !Acceptable(a.options, image) then (t, Some(Err(TooLarge)))
          else
            var content := ContentFor(generation, a, epoch, image);
            if alive
            then (t.(retained := Some(Retained(id, epoch, a.revision, image.png))), Some(Ok(content)))
            else (t, Some(Ok(content)))
  }

  /** `invalidate`: navigation (`closed` false) or retirement (`closed` true). */
  function InvalidateLocked(s: State, epoch: nat, closed: bool): State
  {
    s.(epoch := epoch, finished := false, closed := s.closed || closed, retained := None)
  }

  /** `close` */
  function CloseLocked(s: State): State
  {
    s.(closed := true, finished := false, retained := None)
  }

  /** `finished`: the main document of `epoch` has loaded. */
  function FinishedLocked(s: State, epoch: nat, seen: bool): State
  {
    if seen && !s.closed && s.epoch == epoch && epoch != 0 then s.(finished := true) else s
  }

  /** `viewport_changed` while the revision counter has room; otherwise it closes. */
  function ViewportLocked(s: State): State
  {
    match CheckedSucc(s.revision)
    case Some(r) => s.(revision := r, retained := None)
    case None => CloseLocked(s)
  }

  predicate Names(r: Retained, id: nat, epoch: nat, revision: nat)
  {
    r.id == id && r.epoch == epoch && r.revision == revision
  }

  /** `validate_delivery` */
  function ValidateLocked(s: State, c: Content, seen: bool): Outcome
  {
    if s.closed || !seen then Err(Closed)
    else if !s.finished || s.epoch != c.epoch || s.retained.None?
         || !Names(s.retained.value, c.id, c.epoch, c.revision) then Err(Cancelled)
    else Ok(c)
  }

  datatype Chunk = Chunk(bytes: seq<byte>, nextOffset: nat, eof: bool)

  function Min(a: nat, b: nat): nat
  {
    if a <= b then a else b
  }

  /** `read` */
  function ReadLocked(s: State, generation: nat, c: Content, offset: nat, seen: bool): Result<Chunk, CaptureError>
  {
    if !seen || s.closed then Err(Closed)
    else if s.retained.None? || c.generation != generation
         || !Names(s.retained.value, c.id, c.epoch, c.revision)
         || s.epoch != s.retained.value.epoch || s.revision != s.retained.value.revision
         || !s.finished then Err(Released)
    else
      var png := s.retained.value.png;
      if offset > |png| then Err(InvalidOffset)
      else
        var end := Min(offset + MAX_CHUNK_BYTES, |png|);
        Ok(Chunk(png[offset..end], end, end == |png|))
  }

  /** `release` */
  function ReleaseLocked(s: State, generation: nat, c: Content, seen: bool): (State, Result<(), CaptureError>)
  {
    if !seen || s.closed then (s, Err(Closed))
    else if c.generation == generation && s.retained.Some?
         && Names(s.retained.value, c.id, c.epoch, c.revision)
    then (s.(retained := None), Ok(()))
    else (s, Err(Released))
  }

  /** `lease_png` */
  function LeaseLocked(s: State, generation: nat, t: Token, seen: bool): Result<seq<byte>, CaptureError>
  {
    if !seen || s.closed then Err(Closed)
    else if s.retained.Some? && t.generation == generation
         && Names(s.retained.value, t.id, t.epoch, t.revision)
         && t.epoch == s.epoch && t.revision == s.revision && s.finished
    then Ok(s.retained.value.png)
    else Err(Released)
  }

  /** The guard of `with_valid_token`, under which the caller's update runs. */
  function GuardLocked(s: State, generation: nat, t: Token, seen: bool): Result<(), CaptureError>
  {
    if !seen || s.closed then Err(Closed)
    else if !s.finished || s.epoch != t.epoch || s.revision != t.revision
         || t.generation != generation || s.retained.None?
         || !Names(s.retained.value, t.id, t.epoch, t.revision) then Err(Released)
    else Ok(())
  }

  /** `abandon`: the request was dropped before its outcome was delivered. */
  function AbandonLocked(s: State, id: nat): State
  {
    var t := if IsActive(s, id) then s.(active := Some(s.active.value.(abandoned := true))) else s;
    if IsRetained(t, id) then t.(retained := None) else t
  }

  // ----- what every section keeps -----

  /** The mutex invariant: a retained PNG is always the current document's, and no capture is active beside it. */
  ghost predicate StateInv(s: State)
  {
    && (s.retained.Some? ==>
          s.finished && !s.closed
          && s.retained.value.epoch == s.epoch && s.retained.value.revision == s.revision
          && 1 <= s.retained.value.id <= s.nextId && s.active.None?)
    && (s.closed ==> !s.finished)
    && (s.active.Some? ==>
          && 1 <= s.active.value.id <= s.nextId
          && s.active.value.revision <= s.revision
          && (!s.closed ==> s.active.value.epoch <= s.epoch)
          && (!s.closed && s.active.value.epoch == s.epoch ==> s.finished))
    && s.nextId <= U64_MAX && s.revision <= U64_MAX
  }

  /**
   In every state the mutex can hold, the four ways of asking for the PNG agree:
   delivery validation, a read at offset 0, a lease and the write guard accept a
   window's content exactly when it names the retained resource of an open window.
   */
  lemma {:induction false} ReadersAgree(s: State, generation: nat, c: Content, seen: bool)
    requires StateInv(s) && c.generation == generation
    ensures var live := seen && s.retained.Some? && Names(s.retained.value, c.id, c.epoch, c.revision);
            && (ValidateLocked(s, c, seen).Ok? <==> live)
            && (ReadLocked(s, generation, c, 0, seen).Ok? <==> live)
            && (LeaseLocked(s, generation, TokenOf(c), seen).Ok? <==> live)
            && (GuardLocked(s, generation, TokenOf(c), seen).Ok? <==> live)
            && (ReleaseLocked(s, generation, c, seen).1.Ok? <==> live)
  {
  }
}
