# A verified model of the WebUI desktop runtime's protocols

This project models the parts of the WebUI desktop crates that carry state across
threads or across releases, and proves what they guarantee for every run, every
interleaving, every chain of contract generations and every input.

- **Capture** (`Capture*.dfy`, `Tickets.dfy`). One window's PNG capture: a claimed id, a
  native snapshot, a one-shot slot, a deadline thread, and invalidation by navigation,
  resize, release, drop, timeout and close. Each mutex section is one atomic step, and
  every `Slot::complete` that follows an unlock is a step of its own, so a run is an
  arbitrary interleaving of the threads involved.
- **Clipboard** (`Clipboard*.dfy`). The clipboard machine, layered on a full capture
  machine through tokens; its runs interleave with all capture steps.
- **Schema evolution** (`Named.dfy`, `Contracts.dfy`, `Evolution*.dfy`). The lock that
  decides whether an IPC contract may follow the recorded history.
- **Command queue and event registry** (`WindowCommands*.dfy`, `EventRegistry*.dfy`).
- **Application executor** (`Executor*.dfy`).
- **Contract worklist** (`Worklist.dfy`), **frame grants** (`FrameOrigin.dfy`,
  `FramePolicy.dfy`) and **release versions** (`Text.dfy`, `ReleaseVersion.dfy`).

Objects that the source mutates in place are classes (`CaptureState`, `ClipboardState`,
`WindowHandle`, `EventRegistry`, `ApplicationExecutor`, `FramePolicy`, `Slot`). Their
methods are proved to refine the sections, functions on an immutable state, that the
state machines are built from; the runs themselves are runs of the state machines.
Loops of the source (`update`, `check_messages`, `check_enums`, the worklist, dispatch)
are methods with loops, proved against a declarative specification.

## Modelling decisions

- The host lifetime only goes from active to inactive. A thread reads it outside the
  lock, so each such read is a parameter `seen`: while the host is active it reads
  `true`, afterwards a stale `true` is possible.
- The clock is an event `Expire` that stays true once it happened; a reading of it is a
  parameter `late`, which is `true` only after the deadline passed.
- Navigations supply strictly increasing epochs, as the counter in
  `crates/webui-desktop/src/document.rs:16-27` does.
- `notify_closed` reads the epoch under one lock and invalidates under another; the
  value it read is arbitrary.
- 64-bit counters are written out: capture and clipboard ids use a checked increment,
  handler ids wrap around, grant counts use a checked increment.
- Executor atomics are sequentially consistent steps. Dropping a job closure that did
  not run drops its share of the permit and its end of the slot as two steps in either
  order, because the language leaves the order of a closure's captures open.
- A descriptor pool resolves every enum its fields refer to; a missing message is an
  error path of the worklist and is modelled.
- Strings are sequences of code points. Their order is the order of UTF-8 bytes, and the
  length limit on hosts is checked only where every accepted character is ASCII.
- A contract is assumed to be what protoc lets through: unique method ids and names,
  unique type names, unique field numbers and value names, and no field or value inside
  its own reservations. Message reservations are half-open ranges and enum reservations
  closed ones, as in the source. Lock JSON is a value: absent, unreadable, or parsed.

## Where the code falls short of its obvious reading

- *No failure is ever reported for a request whose bytes stay retained* is false as it
  stands: a host that retires between `Slot::poll` and `validate_delivery` is told
  `Closed` while the PNG is still retained (`CaptureTheorems.ClosedMayPrecedeDiscard`
  builds the run). `CaptureTheorems.DeliveryVerdict` gives the exact condition: a
  delivery fails over retained bytes if and only if the host was seen inactive. Every
  other failure is excluded (`CaptureTheorems.NoFailureWhileRetained`).
- *Every later contract passes the checks against every earlier one* fails when a field
  is renamed at a major bump and later retired: `EvolutionTheorems.RenameThenRetire` gives
  the three generations. `EvolutionTheorems.LaterPassesExactly` says when it holds, for
  any two generations of any accepted history and whatever their majors: if and only if
  every field removed since is reserved under the name it had in the earlier contract.
  Within one major that is always so, which gives `EvolutionTheorems.LaterPassesEarlier`.
  Enum checks pass across majors as well.
- *Dropping a subscription removes exactly its own handler* fails once ids have wrapped
  around: `EventRegistryProtocol.DropTakesAnother` builds a run in which a subscription
  removes the handler of an older one, and the older one, no longer listed, then removes
  the newer one's. `EventRegistryProtocol.DropRemovesItsOwn` states exactly when it
  holds: the first entry with the subscription's wrapped id is its own, or there is none.
- *A waiting completion is woken only after the job gave back its share of the permit*
  is ensured for work that ran, and fails for a closure that is dropped unrun when its end
  of the slot goes first (`ExecutorTheorems.WokenBeforeRelease`);
  `ExecutorTheorems.WokenAfterRelease` states this as an equivalence.

## Model

| member | source | states |
|---|---|---|
| `Tickets.Slot.Complete` | crates/webui-desktop/src/capture.rs:212-226 | the first result completed stays in the slot; a later one changes nothing |
| `Tickets.Slot.Poll` | crates/webui-desktop/src/capture.rs:228-237 | polling takes the recorded result out, or finds none |
| `Tickets.IssueKeepsLedger` | crates/webui-desktop/src/capture.rs:212-226 | an outcome a thread undertakes to record is accounted for until it reaches the slot |
| `Tickets.SettleKeepsLedger` | crates/webui-desktop/src/capture.rs:212-226 | settling moves one outcome from in flight to recorded, and the recorded one was issued |
| `Tickets.PoolSteps` | crates/webui-desktop/src/capture.rs:277-285 | reserving, attaching, forfeiting and releasing deadline reservations keep count == live reservations <= 8 |
| `Capture.ReadersAgree` | crates/webui-desktop/src/capture.rs:772-907 | in any consistent state `validate_delivery`, `read`, `lease_png`, `with_valid_token` accept exactly the same resource |
| `CaptureObject.CaptureState.constructor` | crates/webui-desktop/src/capture.rs:324-341 | a fresh window has no document, no request and no PNG |
| `CaptureObject.CaptureState.ReserveTimer` | crates/webui-desktop/src/capture.rs:479-486 | reserves one of eight deadline threads or answers Overloaded |
| `CaptureObject.CaptureState.Claim` | crates/webui-desktop/src/capture.rs:409-460 | admission refines the claim section, keeps the state invariant, gives a strictly larger id and discards the previous PNG |
| `CaptureObject.CaptureState.AbortUnsubmitted` | crates/webui-desktop/src/capture.rs:523-531 | frees the claim of that id only |
| `CaptureObject.CaptureState.Timeout` | crates/webui-desktop/src/capture.rs:533-553 | marks exactly the request of that id and epoch and keeps its native reservation |
| `CaptureObject.CaptureState.Complete` | crates/webui-desktop/src/capture.rs:584-658 | refines the completion section: frees the claim, retains the PNG only for a current, live, in-time, acceptable image, and says which outcome to record |
| `CaptureObject.CaptureState.Invalidate` | crates/webui-desktop/src/capture.rs:660-695 | a navigation with any epoch drops the PNG, moves the epoch and interrupts the active request; a new epoch or a closed window keeps the state consistent |
| `CaptureObject.CaptureState.Close` | crates/webui-desktop/src/capture.rs:697-711 | close discards the PNG and admits nothing afterwards |
| `CaptureObject.CaptureState.Finished` | crates/webui-desktop/src/capture.rs:730-736 | only the current document can be marked finished |
| `CaptureObject.CaptureState.ViewportChanged` | crates/webui-desktop/src/capture.rs:738-770 | a resize moves the revision, drops the PNG and interrupts the active request |
| `CaptureObject.CaptureState.Read` | crates/webui-desktop/src/capture.rs:790-827 | a read answers a bounded chunk of exactly the named PNG, or the error the checks call for |
| `CaptureObject.CaptureState.Release` | crates/webui-desktop/src/capture.rs:829-850 | releases exactly the named PNG |
| `CaptureObject.CaptureState.LeasePng` | crates/webui-desktop/src/capture.rs:854-877 | leases exactly the retained PNG the token names |
| `CaptureObject.CaptureState.Abandon` | crates/webui-desktop/src/capture.rs:909-933 | a dropped request loses its bytes, and its native reservation stays until the callback |
| `CaptureInvariant.StepKeepsInv` | crates/webui-desktop/src/capture.rs:409-996 | every one of the protocol's steps, by any thread, keeps the invariant that ties state, slots, timers, native operations and reports together |
| `CaptureGrowth.RunGrows` | crates/webui-desktop/src/capture.rs:409-996 | over any run, requests are never forgotten, issued outcomes never withdrawn, and a spoiled request never becomes current again |
| `CaptureTheorems.RunKeepsInv` | crates/webui-desktop/src/capture.rs:409-996 | the invariant holds after every run |
| `CaptureTheorems.OutcomesExclusive` | crates/webui-desktop/src/capture.rs:533-658 | the outcomes ever issued to a request are failures only, or one single success |
| `CaptureTheorems.RetainedMeansSuccess` | crates/webui-desktop/src/capture.rs:584-695 | a PNG is retained under an id only if that request's one outcome is the success describing it (its bytes, its width and height as the PNG header spells them, all within the limits asked for), and the request was not dropped undelivered |
| `CaptureTheorems.NoFailureWhileRetained` | crates/webui-desktop/src/capture.rs:533-770 | no failure is in flight, recorded or reported while the bytes are retained, except Closed after the host retired |
| `CaptureTheorems.DeliveryVerdict` | crates/webui-desktop/src/capture.rs:772-788 | a delivery succeeds iff the bytes are retained and the host is seen active |
| `CaptureTheorems.ClosedMayPrecedeDiscard` | crates/webui-desktop/src/capture.rs:953-987 | a concrete run in which Closed is reported while the bytes stay retained |
| `CaptureTheorems.FailureIsFinal` | crates/webui-desktop/src/capture.rs:533-770 | once a failure is issued the request's bytes are never retained again |
| `CaptureTheorems.DeadTokenStaysDead` | crates/webui-desktop/src/capture.rs:854-877 | a token that is not leasable is never leasable again, in any continuation |
| `CaptureTheorems.LeasableNamesRetained` | crates/webui-desktop/src/capture.rs:854-907 | a leasable token names exactly the PNG retained for the current document and viewport |
| `CaptureTheorems.SkippedEncoderIsUnobservable` | crates/webui-desktop/src/capture.rs:555-582 | once `current` said no, completing with the image or with Cancelled is the same in every later state |
| `CaptureTheorems.DeadlineStaysArmed` | crates/webui-desktop/src/capture.rs:488-553 | no held, unanswered request has its deadline disarmed without an outcome recorded or on its way |
| `CaptureTheorems.DisarmedIsExplained` | crates/webui-desktop/src/capture.rs:523-770 | a finished timer means an outcome was recorded or is in flight, or the request was dropped or never handed out |
| `CaptureTheorems.DeadlineAnswers` | crates/webui-desktop/src/capture.rs:488-553 | in every continuation in which the host still waits, at most three due steps were taken, no step of anybody undoes them, and past the deadline the outcome is in the slot or a due step is enabled |
| `CaptureTheorems.OneNativeSnapshot` | crates/webui-desktop/src/capture.rs:409-477 | at most one native snapshot is outstanding, and none can be claimed before it calls back |
| `CaptureTheorems.IdsIncrease` | crates/webui-desktop/src/capture.rs:431-460 | an id claimed later is larger than every id that exists |
| `CaptureTheorems.ClaimExactly` | crates/webui-desktop/src/capture.rs:431-460 | a capture is admitted iff the window is open with a finished document, no capture is active and an id is left; which error otherwise; what the claim records |
| `CaptureTheorems.FinishedExactly` | crates/webui-desktop/src/capture.rs:730-736 | a document is finished iff its own load event came while the window was open |
| `CaptureTheorems.ReadExactly` | crates/webui-desktop/src/capture.rs:790-827 | a read answers iff the content names the retained PNG and the offset is within it; how many bytes, which ones, and which error otherwise |
| `CaptureTheorems.UndisturbedCaptureEnds` | crates/webui-desktop/src/capture.rs:584-658 | in every reachable state, a capture that nothing interrupted ends exactly as its native side says: its error, TooLarge, or a success that describes and retains exactly the native bytes |
| `CaptureTheorems.DescribedIsAcceptable` | crates/webui-desktop/src/capture.rs:608-632 | the checks on an image accept it iff a truthful description of it is within the limits asked for |
| `CaptureTheorems.DiscardedExactly` | crates/webui-desktop/src/capture.rs:660-770 | a retained PNG is discarded iff the step is a navigation, a resize, close, a new capture, its own release or the undelivered drop of its own request; otherwise the same bytes stay |
| `CaptureTheorems.DeadlineThreadExits` | crates/webui-desktop/src/capture.rs:488-521 | a deadline thread whose request is over or superseded can go on to its exit without waiting for the deadline |
| `CaptureInvariant.NumberOfBigEndian` | crates/webui-desktop/src/capture.rs:629-630 | the four bytes compared with the PNG header stand for the number |
| `CaptureTheorems.CurrentExactly` | crates/webui-desktop/src/capture.rs:555-569 | `current` says yes iff a completion at that moment would pass the native result on |
| `CaptureTheorems.TimeoutExactly` | crates/webui-desktop/src/capture.rs:533-553 | a timeout marks the request of that id and epoch and nothing else |
| `CaptureService.BeginSucceeds` | crates/webui-desktop/src/capture.rs:409-477 | from any state with a free deadline thread that admits a capture, `begin` hands out a fresh, active, timed request and disturbs no other |
| `CaptureService.FailedBeginCleansUp` | crates/webui-desktop/src/capture.rs:461-467 | a `begin` that fails after its claim leaves no active request, timer or slot behind |
| `CaptureService.UnstartedDeadlineCleansUp` | crates/webui-desktop/src/capture.rs:488-531 | a deadline thread that cannot start gives its reservation back |
| `CaptureService.RefusedClaimForfeits` | crates/webui-desktop/src/capture.rs:426-446 | a claim that is refused gives its deadline reservation back and changes nothing else |
| `CaptureService.NavigationTells` | crates/webui-desktop/src/capture.rs:660-695 | a navigation installs its epoch on an unfinished document, discards the PNG, and tells the active request Cancelled with its timer finished |
| `CaptureService.ResizeTells` | crates/webui-desktop/src/capture.rs:738-770 | a resize moves the revision by one, discards the PNG and tells the active request; the last revision closes instead |
| `CaptureService.RetirementTells` | crates/webui-desktop/src/capture.rs:697-728 | close takes effect at once, and its notification tells the active request Closed |
| `CaptureService.TimeoutTells` | crates/webui-desktop/src/capture.rs:533-553 | a deadline that passes marks the active request and tells it Timeout |
| `CaptureService.NeverEarly` | crates/webui-desktop/src/capture.rs:488-553 | no request is marked timed out before its deadline passed |
| `CaptureService.ThreadWakes` | crates/webui-desktop/src/capture.rs:497-517 | the deadline thread wakes iff its timer is finished, to leave, or its deadline passed, to fire |
| `CaptureService.PollTakes` | crates/webui-desktop/src/capture.rs:953-987 | a poll takes the outcome once, reports a failure as it is and sends a success to its validation |
| `CaptureService.ValidationReports` | crates/webui-desktop/src/capture.rs:772-788 | what validation says is what the host is told |
| `CaptureService.RetiredPollSaysClosed` | crates/webui-desktop/src/capture.rs:956-964 | a poll that finds the host retired closes the window and says so |
| `CaptureService.DropEnds` | crates/webui-desktop/src/capture.rs:909-933 | an undelivered drop marks the request, finishes its timer and discards its bytes; a delivered one changes nothing |
| `CaptureService.UnwantedResult` | crates/webui-desktop/src/capture.rs:598-612 | which error a result gets that is not wanted any more, and that nothing is retained then |
| `CaptureService.ReleaseExactly` | crates/webui-desktop/src/capture.rs:829-850 | a release discards the PNG iff the content names it; which error otherwise |
| `CaptureService.AskedExactly` | crates/webui-desktop/src/capture.rs:772-907 | leasing, the write guard, validation and reading, case by case: which resource each accepts and which error it answers otherwise |
| `CaptureTheorems.DeadlineThreadsBounded` | crates/webui-desktop/src/capture.rs:277-285 | the worker counter equals the live reservations and never exceeds eight |
| `CaptureTheorems.TransferIsComplete` | crates/webui-desktop/src/capture.rs:790-827 | reads following `next_offset` terminate, are at most 20 KiB each and concatenate to exactly the rest of the PNG |
| `CaptureTheorems.DeliveredIsReadable` | crates/webui-desktop/src/capture.rs:772-877 | a success is readable and leasable at the instant of delivery, to the last advertised byte, and its width and height are those in the PNG header |
| `ClipboardObject.ClipboardState.Claim` | crates/webui-desktop/src/clipboard.rs:307-337 | admission refines the claim section and gives a larger id |
| `ClipboardObject.ClipboardState.AbortUnsubmitted` | crates/webui-desktop/src/clipboard.rs:383-391 | frees the claim of that id only |
| `ClipboardObject.ClipboardState.Timeout` | crates/webui-desktop/src/clipboard.rs:393-407 | marks exactly the request of that id |
| `ClipboardObject.ClipboardState.BeginWrite` | crates/webui-desktop/src/clipboard.rs:435-461 | the irreversible gate refines the section that holds both locks |
| `ClipboardObject.ClipboardState.Take` | crates/webui-desktop/src/clipboard.rs:463-477 | the locked part takes the operation of that id out and reads whether the window is closed |
| `ClipboardObject.ClipboardState.Reply` | crates/webui-desktop/src/clipboard.rs:478-493 | the unlocked part: the native result is the answer whenever nothing overrules it; cancellation, timeout, close or a dead token do, and a success names the PNG retained then |
| `ClipboardObject.ClipboardState.Cancel` | crates/webui-desktop/src/clipboard.rs:522-536 | cancels that id only while it is active |
| `ClipboardObject.ClipboardState.CloseSilent` | crates/webui-desktop/src/clipboard.rs:549-558 | close cancels the active request and admits nothing afterwards |
| `ClipboardInvariant.CaptureStepKeepsTokens` | crates/webui-desktop/src/clipboard.rs:495-520 | no capture step revives a dead token or mints its id again |
| `ClipboardInvariant.StepKeepsInv` | crates/webui-desktop/src/clipboard.rs:247-656 | every clipboard or capture step keeps the joint invariant |
| `ClipboardGrowth.StepKept` | crates/webui-desktop/src/clipboard.rs:247-656 | a step never forgets a request, its token or its cancellation |
| `ClipboardTheorems.RunKeepsInv` | crates/webui-desktop/src/clipboard.rs:247-656 | the joint invariant holds after every run |
| `ClipboardTheorems.WriteGate` | crates/webui-desktop/src/clipboard.rs:435-461 | when `writing` turns true the request is active, not cancelled, timed out, late or closed, writes for the first time, and its token names the PNG retained now |
| `ClipboardTheorems.WriteGateExactly` | crates/webui-desktop/src/clipboard.rs:435-461 | the gate opens iff the host is seen active, the request is in time, has not written yet, and nothing blocks it |
| `ClipboardTheorems.WritesAtMostOnce` | crates/webui-desktop/src/clipboard.rs:435-461 | `writing` turns true at most once per id in every run |
| `ClipboardTheorems.BlockedNeverWrites` | crates/webui-desktop/src/clipboard.rs:435-461 | whatever blocks a write blocks it in every continuation |
| `ClipboardTheorems.EarlierStopPreventsWrite` | crates/webui-desktop/src/clipboard.rs:435-582 | a release, retake, navigation, resize, cancel, timeout, drop, retirement, native return or close whose locked step came first prevents the native write |
| `ClipboardTheorems.StopsExactly` | crates/webui-desktop/src/clipboard.rs:393-582 | a write still possible becomes impossible iff the step is one of those; no other step of either machine stops it |
| `ClipboardTheorems.UnbackedExactly` | crates/webui-desktop/src/capture.rs:854-877 | a token loses its PNG iff the capture step discards the PNG it names |
| `ClipboardTheorems.DeadStaysDead` | crates/webui-desktop/src/clipboard.rs:495-507 | a dead capture token stays dead through every clipboard and capture step |
| `ClipboardTheorems.CondemnedIsDead` | crates/webui-desktop/src/clipboard.rs:495-536 | when `cancel_invalidated` goes on to cancel a request, its capture token is dead, then and in every later state |
| `ClipboardTheorems.CondemnedAlone` | crates/webui-desktop/src/clipboard.rs:495-536 | the cancellation that follows touches that request only, and only while it is still active, never a later one |
| `ClipboardTheorems.OutcomesExclusive` | crates/webui-desktop/src/clipboard.rs:393-536 | the outcomes ever issued are failures only, or one success |
| `ClipboardTheorems.ReportedSuccessIsLeasable` | crates/webui-desktop/src/clipboard.rs:612-647 | a success is reported only by the last lease check of a poll, to a request whose one outcome is the success, while its token names the PNG retained for the current document and viewport |
| `ClipboardTheorems.ClaimExactly` | crates/webui-desktop/src/clipboard.rs:307-337 | a write is admitted iff the window is open, seen active, idle, and an id is left; which error otherwise |
| `ClipboardTheorems.UndisturbedWriteEnds` | crates/webui-desktop/src/clipboard.rs:463-493 | in every reachable state, the reply to a write that nothing interrupted issues exactly the native result if the window was open, in time, and the token names the retained PNG; which error otherwise |
| `ClipboardTheorems.DeliveryExactly` | crates/webui-desktop/src/clipboard.rs:628-637 | the last check of a poll reports a success iff the token is leasable then; which error otherwise |
| `ClipboardTheorems.DeadlineThreadExits` | crates/webui-desktop/src/clipboard.rs:348-381 | a deadline thread whose request is over or cancelled can go on to its exit without waiting for the deadline |
| `ClipboardService.BeginSucceeds` | crates/webui-desktop/src/clipboard.rs:247-305 | from any idle, open state with a leasable token and a free deadline thread, `begin` hands out a fresh, active, timed request |
| `ClipboardService.FailedBeginCleansUp` | crates/webui-desktop/src/clipboard.rs:383-391 | a `begin` that fails after its claim leaves no active request or timer behind |
| `ClipboardService.InvalidatedIsCancelled` | crates/webui-desktop/src/clipboard.rs:495-507 | `cancel_invalidated` cancels and tells the active request iff its token is not leasable |
| `ClipboardService.NavigationCancels` | crates/webui-desktop/src/clipboard.rs:538-547 | a navigation cancels and tells the active request |
| `ClipboardService.ReleaseCancels` | crates/webui-desktop/src/clipboard.rs:509-520 | a release cancels and tells the active request iff it is the one of the released token |
| `ClipboardService.CloseTells` | crates/webui-desktop/src/clipboard.rs:549-573 | close marks the active request at once, and its notification tells it Closed and finishes its timer |
| `ClipboardService.TimeoutTells` | crates/webui-desktop/src/clipboard.rs:393-407 | a deadline that passes marks the active request and tells it Timeout |
| `ClipboardService.NeverEarly` | crates/webui-desktop/src/clipboard.rs:348-407 | no request is marked timed out before its deadline passed |
| `ClipboardService.CallbackTakes` | crates/webui-desktop/src/clipboard.rs:463-478 | the native reply is taken with the marks of that moment, and the timer finished |
| `ClipboardService.AnswerExactly` | crates/webui-desktop/src/clipboard.rs:479-489 | the reply, case by case |
| `ClipboardService.WriteRefusals` | crates/webui-desktop/src/clipboard.rs:435-461 | which error the gate answers with, and that a refusal changes nothing |
| `ClipboardService.PollTakes` | crates/webui-desktop/src/clipboard.rs:625-638 | a poll takes the outcome once, reports a failure as it is and sends a success to its last check |
| `ClipboardService.DeliverReports` | crates/webui-desktop/src/clipboard.rs:629-636 | what the last check says is what the host is told |
| `ClipboardService.RetiredPollSaysClosed` | crates/webui-desktop/src/clipboard.rs:619-622 | a poll that finds the host retired closes the window and says so |
| `ClipboardService.DropEnds` | crates/webui-desktop/src/clipboard.rs:575-582 | an undelivered drop cancels the request and finishes its timer |
| `ClipboardTheorems.DeadlineStaysArmed` | crates/webui-desktop/src/clipboard.rs:348-407 | no held, unanswered request has its deadline disarmed without an outcome coming |
| `ClipboardTheorems.DisarmedIsExplained` | crates/webui-desktop/src/clipboard.rs:383-582 | a finished timer means an outcome recorded or coming, or a dropped or never handed out request |
| `ClipboardTheorems.DeadlineAnswers` | crates/webui-desktop/src/clipboard.rs:348-407 | the same with at most five due steps, whether the timeout or the native reply comes first |
| `ClipboardTheorems.OneNativeWrite` | crates/webui-desktop/src/clipboard.rs:307-346 | at most one native operation is outstanding, ids increase, and the worker counter equals the live reservations, at most eight |
| `Named.MergeFinds` | crates/webui-desktop-build/src/evolution.rs:98-107 | after keeping history, a lookup finds the current declaration if there is one, else the recorded one |
| `Named.SortCorrect` | crates/webui-desktop-build/src/evolution.rs:109-110 | sorting by name orders the entries and neither adds, drops nor repeats one |
| `Named.SortedDetermined` | crates/webui-desktop-build/src/evolution.rs:109-110 | a sorted list with unique names is determined by its members |
| `EvolutionCheck.CheckMethod` | crates/webui-desktop-build/src/evolution.rs:47-88 | a method is accepted iff it may follow the lock; a rejection names a rule it breaks |
| `EvolutionCheck.CheckField` | crates/webui-desktop-build/src/evolution.rs:124-162 | a field passes iff it is kept with its wire type (and its API within a major) or retired by number and name |
| `EvolutionCheck.CheckMessage` | crates/webui-desktop-build/src/evolution.rs:119-201 | a message passes iff it follows its recorded declaration; a rejection names a broken rule |
| `EvolutionCheck.CheckEnum` | crates/webui-desktop-build/src/evolution.rs:203-269 | an enum passes iff it follows its recorded declaration, in whatever order values are visited |
| `EvolutionCheck.CheckMethods` | crates/webui-desktop-build/src/evolution.rs:47-88 | all methods pass iff each may follow; a rejection names the method at fault |
| `EvolutionCheck.CheckMessages` | crates/webui-desktop-build/src/evolution.rs:119-201 | all messages pass iff each one present in both follows; a rejection names the message at fault |
| `EvolutionCheck.CheckEnums` | crates/webui-desktop-build/src/evolution.rs:203-269 | all enums pass iff each one present in both follows; a rejection names the enum at fault |
| `EvolutionCheck.RetireIds` | crates/webui-desktop-build/src/evolution.rs:89-93 | retired ids grow by exactly the previous ids that are gone |
| `EvolutionCheck.KeepHistory` | crates/webui-desktop-build/src/evolution.rs:98-107 | the loop appends exactly the recorded entries whose names are not there yet |
| `EvolutionCheck.Update` | crates/webui-desktop-build/src/evolution.rs:19-117 | accepts iff the contract may follow, records exactly the next lock with its hash, identity and methods, and a diagnostic names a rule and a subject really at fault |
| `EvolutionCheck.RejectedExactly` | crates/webui-desktop-build/src/evolution.rs:19-269 | a contract may follow a lock iff no diagnostic applies to it, each diagnostic being spelled out on the schema's own fields and ranges |
| `EvolutionTheorems.FollowsTransitive` | crates/webui-desktop-build/src/evolution.rs:119-201 | within a major, message compatibility is transitive |
| `EvolutionTheorems.EnumTransitive` | crates/webui-desktop-build/src/evolution.rs:203-269 | enum compatibility is transitive across majors |
| `EvolutionTheorems.LockRecordsMessages` | crates/webui-desktop-build/src/evolution.rs:96-110 | the lock holds the latest declaration of every message ever seen |
| `EvolutionTheorems.LockRecordsEnums` | crates/webui-desktop-build/src/evolution.rs:96-110 | the lock holds the latest declaration of every enum ever seen |
| `EvolutionTheorems.MessageDescends` | crates/webui-desktop-build/src/evolution.rs:94-201 | the latest declaration of a message follows every earlier one, through gaps; wire types and reservations across majors too |
| `EvolutionTheorems.EnumDescends` | crates/webui-desktop-build/src/evolution.rs:94-269 | the latest declaration of an enum follows every earlier one, through gaps |
| `EvolutionTheorems.FieldNumberForLife` | crates/webui-desktop-build/src/evolution.rs:119-201 | over any accepted chain a field number keeps kind, target, repeated and map, each of them, for life and never returns once removed, even if the type vanished meanwhile |
| `EvolutionTheorems.FieldApiForMajor` | crates/webui-desktop-build/src/evolution.rs:133-144 | within one major a field number also keeps its name, presence and oneof |
| `EvolutionTheorems.UpdateKeepsField` | crates/webui-desktop-build/src/evolution.rs:124-162 | one accepted update keeps all four of a field's wire properties, its API within a major, or reserves its number and name |
| `EvolutionTheorems.MessageRanges` | crates/webui-desktop-build/src/evolution.rs:146-149 | message reservations are half-open: one number is [n, n+1), adjacent ranges join |
| `EvolutionTheorems.EnumRanges` | crates/webui-desktop-build/src/evolution.rs:220-223 | enum reservations are closed: one number is [n, n] |
| `EvolutionTheorems.EnumValueForLife` | crates/webui-desktop-build/src/evolution.rs:203-269 | over any accepted chain an enum value name keeps its number for life and never returns once removed |
| `EvolutionTheorems.LaterPassesEarlier` | crates/webui-desktop-build/src/evolution.rs:94-269 | with an unchanged major every later contract passes the checks directly against every earlier one; enum checks also across majors |
| `EvolutionTheorems.LaterPassesExactly` | crates/webui-desktop-build/src/evolution.rs:119-201 | whatever the majors, a later contract passes the message checks against an earlier one iff every field removed since is reserved under the name it had there |
| `EvolutionTheorems.DescendantFollowsExactly` | crates/webui-desktop-build/src/evolution.rs:145-162 | between a declaration and any descendant, the retirement guard is all the message checks can still object to |
| `EvolutionTheorems.RenameThenRetire` | crates/webui-desktop-build/src/evolution.rs:133-162 | three accepted generations with a major bump whose last one fails the message checks against the first, the input that the condition of `LaterPassesExactly` shuts out |
| `EvolutionTheorems.RetiredExactly` | crates/webui-desktop-build/src/evolution.rs:46-93 | retired ids are exactly all ids ever seen minus those in the current contract |
| `EvolutionTheorems.MethodIdForLife` | crates/webui-desktop-build/src/evolution.rs:46-93 | an id seen twice was present in every generation between, under one name, with the same receiver, kind, input, output and development flag while the major is unchanged |
| `EvolutionTheorems.UpdateIsStable` | crates/webui-desktop-build/src/evolution.rs:19-117 | updating again with the same contract and hash is accepted and reproduces the identical lock |
| `WindowCommands.SectionsKeepStateInv` | crates/webui-desktop/src/event.rs:410-516 | send, install, drain and close keep title accounting, both limits and the wakeup rule |
| `WindowCommands.WindowHandle.SetWakeup` | crates/webui-desktop/src/event.rs:410-434 | installing over a backlog schedules and hands out one wakeup; a closed handle ignores it |
| `WindowCommands.WindowHandle.DrainCommands` | crates/webui-desktop/src/event.rs:438-448 | drains exactly the queue and resets the accounting |
| `WindowCommands.WindowHandle.Check` | crates/webui-desktop/src/event.rs:461-474 | the refusal is Closed, TitleTooLarge, QueueFull or TitleQueueFull in that order, and the byte subtraction cannot underflow |
| `WindowCommands.AcceptedExactly` | crates/webui-desktop/src/event.rs:461-474 | a command is accepted iff the handle is open, fewer than 256 commands wait, and a title is within 16 KiB and the 64 KiB budget; which error otherwise |
| `WindowCommands.WindowHandle.Send` | crates/webui-desktop/src/event.rs:454-498 | a command is refused exactly for the listed reasons, else queued last with its bytes counted and at most one wakeup handed out |
| `WindowCommands.WindowHandle.Close` | crates/webui-desktop/src/event.rs:504-516 | close discards the queue and the wakeup |
| `WindowCommandsProtocol.StepKeepsInv` | crates/webui-desktop/src/event.rs:410-516 | every step of senders, UI thread, installation and close keeps the invariant |
| `WindowCommandsProtocol.NoLostWakeup` | crates/webui-desktop/src/event.rs:410-498 | wake_scheduled iff commands wait and a callback is installed; then that callback was undertaken since the last drain; once all wakeups ran and were followed by drains nothing waits |
| `WindowCommandsProtocol.WakeupThenDrainServes` | crates/webui-desktop/src/event.rs:431-448 | a wakeup is run once, and the next drain serves it |
| `WindowCommandsProtocol.OneWakeupPerBatch` | crates/webui-desktop/src/event.rs:410-498 | wakeups in a batch are exactly one for the first command sent with a callback installed, plus one per reinstallation over the backlog |
| `WindowCommandsProtocol.WithinLimits` | crates/webui-desktop/src/event.rs:454-498 | queued title bytes are exactly the sum of queued titles, within 64 KiB, and at most 256 commands wait |
| `WindowCommandsProtocol.DeliveredInOrder` | crates/webui-desktop/src/event.rs:438-516 | drained batches plus the queue are the accepted commands in order until close, which discards exactly the tail |
| `WindowCommandsProtocol.NothingAfterClose` | crates/webui-desktop/src/event.rs:504-516 | after close nothing is accepted, woken or drained, in any run |
| `WindowCommandsProtocol.BackgroundIsLast` | crates/webui-desktop/src/event.rs:476-480 | the live background is the colour of the last accepted background command |
| `EventRegistry.EventRegistry.Register` | crates/webui-desktop/src/event.rs:172-198 | appends the handler under the next wrapping id, or refuses at 256 or once closed |
| `EventRegistry.RegisteredExactlyIf` | crates/webui-desktop/src/event.rs:177-193 | a handler is accepted iff the registry is open and holds fewer than 256; which error otherwise; under which id |
| `EventRegistry.EventRegistry.Remove` | crates/webui-desktop/src/event.rs:243-272 | removes the first entry with the id and keeps the order of the others |
| `EventRegistry.EventRegistry.Snapshot` | crates/webui-desktop/src/event.rs:205-217 | a dispatch takes the whole handler list of that moment, or nothing once closed |
| `EventRegistry.EventRegistry.Close` | crates/webui-desktop/src/event.rs:231-240 | close drops every handler for good |
| `EventRegistry.RunSnapshot` | crates/webui-desktop/src/event.rs:218-224 | every handler of the snapshot is called once in order; PreventDefault iff one answers it |
| `EventRegistryProtocol.StepKeepsInv` | crates/webui-desktop/src/event.rs:172-272 | registrations, drops, close and dispatch steps in any interleaving keep the invariant |
| `EventRegistryProtocol.RegisteredExactly` | crates/webui-desktop/src/event.rs:172-272 | at most 256 handlers, and until ids wrap exactly those registered, not dropped and not closed, in registration order |
| `EventRegistryProtocol.DispatchRunsItsSnapshot` | crates/webui-desktop/src/event.rs:205-225 | each dispatch, however nested, calls exactly the handlers live when it started, in order, and prevents the default iff one of them does |
| `EventRegistryProtocol.SnapshotIsFixed` | crates/webui-desktop/src/event.rs:205-225 | nothing that happens later changes what a dispatch runs on |
| `EventRegistryProtocol.BeginStarts` | crates/webui-desktop/src/event.rs:205-218 | a dispatch starts on the handler list of that moment |
| `EventRegistryProtocol.DispatchGoesOn` | crates/webui-desktop/src/event.rs:218-224 | a dispatch that is not done can always go on, one call or answer nearer to its end, and disturbs no other |
| `EventRegistryProtocol.DropRemovesItsOwn` | crates/webui-desktop/src/event.rs:132-139 | dropping a subscription, listed or not, removes its own handler and no other iff the first entry with its wrapped id is its own or there is none, which always holds before 2^64 registrations |
| `EventRegistryProtocol.DropTakesAnother` | crates/webui-desktop/src/event.rs:132-139 | a reachable state after 2^64 registrations in which a drop removes an older subscription's handler, after which dropping the older one removes the newer handler |
| `ExecutorObject.ApplicationExecutor.Reserve` | crates/webui-desktop/src/execution.rs:91-97 | takes a permit iff fewer than 16 are out |
| `ExecutorObject.ApplicationExecutor.Lock` | crates/webui-desktop/src/execution.rs:126-129 | submission goes on under the sender mutex iff the executor is still open |
| `ExecutorObject.ApplicationExecutor.Send` | crates/webui-desktop/src/execution.rs:130-156 | the job is queued iff a worker is left, and always while open; the channel is never full |
| `ExecutorObject.ApplicationExecutor.Submit` | crates/webui-desktop/src/execution.rs:84-161 | undisturbed, a submission is refused iff closed or 16 permits are out, else its job is last in the queue with one more permit |
| `ExecutorObject.ApplicationExecutor.Close` | crates/webui-desktop/src/execution.rs:163-168 | close sets the flag and takes the sender |
| `ExecutorObject.ApplicationExecutor.Poll` | crates/webui-desktop/src/execution.rs:66-81 | a poll takes the value, else reports closed, else leaves a waker |
| `ExecutorInvariant.RoomToSend` | crates/webui-desktop/src/execution.rs:91-156 | while a submission holds the sender fewer than 16 jobs are queued |
| `ExecutorInvariant.StepKeepsInv` | crates/webui-desktop/src/execution.rs:31-175 | every step of submitters, workers, pollers and close keeps the invariant |
| `ExecutorTheorems.CountIsLivePermits` | crates/webui-desktop/src/execution.rs:31-36 | the count equals the live permits and never exceeds 16 |
| `ExecutorTheorems.SendNeverFindsItFull` | crates/webui-desktop/src/execution.rs:130-156 | a send fails iff every worker is gone, and only after close |
| `ExecutorTheorems.AdmissionExactly` | crates/webui-desktop/src/execution.rs:88-129 | a permit is given iff fewer than 16 are out, a submission goes on iff the executor is open, and a refused one keeps nothing |
| `ExecutorTheorems.AtMostTwoRun` | crates/webui-desktop/src/execution.rs:133-149 | work runs on two threads only, one job on each at a time |
| `ExecutorTheorems.WorkerLeavesAfterClose` | crates/webui-desktop/src/execution.rs:138-147 | a worker leaves only after close, through an empty channel or with the job it held dropped unrun |
| `ExecutorTheorems.PollExactly` | crates/webui-desktop/src/execution.rs:66-81 | a poll answers the value once if it is there, else closed, else puts the caller to sleep with its waker kept |
| `ExecutorTheorems.PublishExactly` | crates/webui-desktop/src/execution.rs:109-124 | the value is stored and its waker taken, then the slot is closed and every waker run |
| `ExecutorTheorems.CloseReturns` | crates/webui-desktop/src/execution.rs:163-168 | the two operations of close leave the flag set and the sender gone |
| `ExecutorTheorems.EndedIsResolved` | crates/webui-desktop/src/execution.rs:44-58 | a job run or discarded leaves its completion resolved and nobody asleep, and the value of a job that ran is there or was delivered |
| `ExecutorTheorems.OpenExecutorRuns` | crates/webui-desktop/src/execution.rs:104-117 | while the executor is open, a job that is over was called and its value is there or was delivered, unless its completion was dropped |
| `ExecutorTheorems.OpenExecutorServes` | crates/webui-desktop/src/execution.rs:84-161 | an open executor takes at most nine thread steps per job sent, and when none is possible every job handed out is over and was called unless cancelled |
| `ExecutorTheorems.AnswersAreHonest` | crates/webui-desktop/src/execution.rs:66-81 | the value is delivered at most once, only if the work ran, and Closed never precedes it |
| `ExecutorTheorems.WokenAfterRelease` | crates/webui-desktop/src/execution.rs:118-125 | a waiting completion is woken with the job's share of the permit still held iff the closure is being dropped unrun and its end of the slot goes first; never if the work was called |
| `ExecutorTheorems.WokenBeforeRelease` | crates/webui-desktop/src/execution.rs:44-58 | a reachable state after close in which a waiter is woken while the dropped closure still has its share |
| `ExecutorTheorems.CancelledNeverRuns` | crates/webui-desktop/src/execution.rs:104-108 | work whose completion is dropped before it starts is never called, in any continuation |
| `ExecutorTheorems.StoppedIsResolved` | crates/webui-desktop/src/execution.rs:138-147 | when workers are gone and the channel is dropped every completion still held is resolved |
| `ExecutorTheorems.WorkersCanMove` | crates/webui-desktop/src/execution.rs:138-147 | after close, until all workers stopped, some worker step is possible |
| `ExecutorTheorems.CloseResolvesEverything` | crates/webui-desktop/src/execution.rs:44-168 | after close the workers take a bounded number of steps whatever callers do, and when none can take another every held completion is resolved |
| `Worklist.Roots` | crates/webui-desktop-build/src/model.rs:170-176 | the worklist starts with exactly the inputs and the rpc outputs |
| `Worklist.ScanFields` | crates/webui-desktop-build/src/model.rs:200-227 | one message's fields add exactly their message and enum targets, or fail iff an option is not allowed |
| `Worklist.VisitMessage` | crates/webui-desktop-build/src/model.rs:191-228 | a visited message extends the closure by itself, or a real fault is named |
| `Worklist.Turn` | crates/webui-desktop-build/src/model.rs:179-228 | one turn of the loop skips a name seen before, visits a new one, or names a real fault |
| `Worklist.Collect` | crates/webui-desktop-build/src/model.rs:168-236 | terminates; succeeds iff everything reachable is declared, valid and within 4096; then answers exactly the closure with every enum used; a failure names a reachable fault |
| `Worklist.ClosureIsUnique` | crates/webui-desktop-build/src/model.rs:168-236 | the answer depends neither on pop order nor on the order of methods or fields |
| `Worklist.ClosureIsLeast` | crates/webui-desktop-build/src/model.rs:168-236 | the messages are the least set closed under method types and message fields, with every enum referred to, all valid with allowed options, at most 4096 |
| `FrameOrigin.AtMostOneOrigin` | crates/webui-desktop/src/frame_policy.rs:36-60 | no URL is allowed by two different origins |
| `FrameOrigin.OriginNamesOne` | crates/webui-desktop/src/frame_policy.rs:36-45 | an origin text names one host and one port |
| `FrameOrigin.OriginExactly` | crates/webui-desktop/src/frame_policy.rs:11-45 | an origin is made iff the port is nonzero and the host is dotted labels of 1 to 63 lower-case letters, digits and inner hyphens under .localhost, at most 253 long |
| `FrameOrigin.AllowedUrls` | crates/webui-desktop/src/frame_policy.rs:54-60 | an origin allows exactly itself, or itself followed by a slash and a path, without backslash or control character |
| `FramePolicy.FramePolicy.Grant` | crates/webui-desktop/src/frame_policy.rs:159-190 | a grant raises its origin's count or adds an entry, or is refused when retired, closed or full |
| `FramePolicy.FramePolicy.DropGrant` | crates/webui-desktop/src/frame_policy.rs:197-217 | a dropped grant lowers its origin's count, removing the entry with the last one |
| `FramePolicy.FramePolicy.Close` | crates/webui-desktop/src/frame_policy.rs:113-123 | close drops every entry |
| `FramePolicy.FramePolicy.AllowsUrl` | crates/webui-desktop/src/frame_policy.rs:98-111 | allowed iff the host is seen active, the policy is open and an entry's origin allows the URL |
| `FramePolicy.SwapRemoved` | crates/webui-desktop/src/frame_policy.rs:206-216 | removing by swap loses exactly that entry and moves no count to another origin |
| `FramePolicy.CountsAreLiveGrants` | crates/webui-desktop/src/frame_policy.rs:159-218 | until close each count is the number of live grants of its origin, origins are distinct, at most 32 |
| `FramePolicy.GrantedExactly` | crates/webui-desktop/src/frame_policy.rs:159-183 | a grant is given iff the host is seen active, the policy open, and its origin has an entry or fewer than 32 exist; which error otherwise |
| `FramePolicy.ActiveHostIsServed` | crates/webui-desktop/src/frame_policy.rs:159-190 | while the host is active and the policy open a grant with room is given |
| `FramePolicy.CloseIsFinal` | crates/webui-desktop/src/frame_policy.rs:113-123 | after close nothing is granted or allowed in any run |
| `FramePolicy.AllowedExactly` | crates/webui-desktop/src/frame_policy.rs:98-218 | in every run a URL is allowed iff the host is seen active, the policy is open and a live grant's origin allows it, and that origin is unique |
| `Text.NumberRoundTrip` | xtask/src/release_version.rs:107-115 | a string parses to a number iff it is that number's decimal and fits in 64 bits |
| `Text.JoinOfSplit` | xtask/src/release_version.rs:33-39 | splitting loses nothing and no part holds the separator |
| `Text.SplitOfJoin` | xtask/src/release_version.rs:33-39 | joining parts without the separator and splitting gives them back |
| `ReleaseVersion.ParseExactlyPrints` | xtask/src/release_version.rs:21-47 | a string parses to a version iff the version is valid and the string is its print |
| `ReleaseVersion.PrintThenParse` | xtask/src/release_version.rs:97-105 | printing then parsing gives the version back |
| `ReleaseVersion.PythonReadsBack` | xtask/src/release_version.rs:75-80 | the Python version, read by PEP 440's grammar, says exactly what the release version says |
| `ReleaseVersion.OrderAgreesWithPython` | xtask/src/release_version.rs:12-18 | the derived order equals the order PEP 440 gives the mapped Python versions |
| `ReleaseVersion.HotfixesFollowTheirRelease` | xtask/src/release_version.rs:12-18 | a release precedes each of its hotfixes, these order by number, and all precede the next release, in both orders |
| `ReleaseVersion.NumbersDecide` | xtask/src/release_version.rs:12-18 | major, then minor, then patch decide |
| `ReleaseVersion.Spellings` | xtask/src/release_version.rs:75-105 | how stable and hotfix versions are spelled, as releases and for Python |

## Left out

- Submit: states one submission that nobody disturbs; submissions that interleave are covered by the executor's state machine.
- RunSnapshot: the answer of a callback is a function of its registration; what callbacks do to the registry meanwhile is covered by the registry's state machine.
- Enqueue, Check, Deliver: parts of one source function, split so that each proof stays small.
- Native adapters, foreign calls and `ClipboardState::payload`: a native operation is only submitted and called back.
- Mutex poisoning, panics in callbacks and failures to spawn executor threads.
- Wakers of capture and clipboard slots: a poll that finds nothing is not a step.
- Class forms of the worker and timer threads: their steps are functions on values in the protocol modules.
- Memory ordering: atomics are sequentially consistent.
- `CaptureOptions` builders, PNG encoding and the Windows stream bookkeeping.
- Sorting of reservation ranges while an enum descriptor is recorded: `Worklist` takes the recorded value as given.
- `methods`, `message`, descriptor validation and symbol checks in `model.rs`: option lookups and code that is not part of this model.
- File handling, hashing and code generation of the build crate.
- The Linux variant of frame grants, which refuses every grant.
- `to_javascript`, host-message parsing and the drag-region script.
- `parse_tag`, `with_hotfix`, `python_cargo_version` and `npm_dist_tag`: they would only add easy members.
- Publishing, hotfix and development commands of `xtask`.
