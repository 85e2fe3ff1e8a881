# Botster web client: a verified model

This project models the stateful core of the Botster web client and proves what it keeps over every
run. Its main part is the terminal data plane, the client-side protocol machine between a mounted
terminal view and the Hub. Smaller parts are the identities of realized UI trees, the plugin log view,
entity demand, the entity store, quarantine rows, the session-type form, browser routes, and pointer
and wheel input.

`dafny verify dfyconfig.toml` checks everything.

## How it is built

**Terminal data plane.** `TerminalInput.dfy` and `TerminalPlane.dfy` give every callback and promise
continuation as one atomic event on a value; the environment orders events freely, so frames, send
completions, reader results and timeouts may come late or for an attachment that is gone. Promise
chains are lists of unfinished links kept per attachment; event queues are kept per reset, so old work
runs on beside the new. Logs of frames offered, payloads admitted and delivered, outcomes, attaches and
Detach requests are never read by the operations. `TerminalInputProofs.dfy` and
`TerminalPlaneProofs.dfy` prove one invariant of every step; `TerminalHistory.dfy` proves what no later
step can undo; the `...Effects` modules say for every event what becomes of each field, in terms of the
state before it, the frame handled and the result reported, not of the operation that does it; the
`...Theorems` modules state the properties of runs. `HubTerminalDataPlane.dfy` is the
class: it updates its fields in place, keeps byte counters and the window as a map, and every method is
proved to do to its state what the corresponding event does to the value. `Valid` of the class says that
the counters are the sums of what is held and that the invariant holds, which ties the counter of buffered
bytes to the buffer.

**UI trees.** `UiNodes.dfy` is the tree and how identities are realized, `UiNodeIdentity.dfy` the two
traversals and their comparison, `UiNodeReach.dfy` the paths of a page and that the check follows each once, `UiNodeChecker.dfy` the check as a walk that pushes issues and counts
in a map, `BindListIdentity.dfy` and `BindListRepeats.dfy` the authored check of bind-list templates.

**Others.** One module per component, each with a step function, run properties, and a class where the
source updates fields in place.

## Hypotheses

- Listeners do not call back into the plane while it calls them. The source zeroes its counters after
  publishing outcomes (`src/botster/hubTerminalDataPlane.ts:575-590`) and does not guard against it.
- Opening a stream does not throw. Awaits that only pass a microtask, and the pauses that construction
  can inject, are part of the step they belong to, except where other work can come between: before the
  stream is opened, before a snapshot install and before a reader answers.
- Fresh subscription ids never repeat; reserved route generations and clocks are parameters of events.
  Expiry of a consent or of the hydration bound is an event that may come at any time.
- A repeated ATTACH_STATE `attached` sets the accepted epoch to 0 again, and `to_epoch` only has to
  differ from `from_epoch`: the model does the same.
- The route generation may first be taken from an early frame and then be replaced by the reserved one.
- The geometry recorded as sent means that a RESIZE was offered to the stream; the frame log lists
  frames offered, whether or not the stream took them.
- The recovery that follows the close of a route channel in a microtask is the ordinary recovery event.
- A text key accounts the UTF-16 length of its text, while its frame carries the UTF-8 length.
- A table's empty state is authored in the node; a form field's schema may name any kind, form fields and
  tables included. A blank id is emitted but not counted.
- Deriving a descendant id from a row id and a key is an arbitrary function; injectivity is assumed only
  in `BindListDistinctIff` and what follows from it.
- The Hub answers a log read with a run of consecutive retained records from the first unread one on,
  none for a package without a log.
- Routes are texts of octets; the wheel and the pointer use real numbers.

## What the proofs found

- A RESIZE answered before it was sent lets a second one be appended; the first then goes out late with
  the geometry it was appended with, unrecorded (`EarlyResultRepeatsGeometry`). When the earlier size is
  requested again, the terminal is left with the wrong one, nothing being due, until another is requested
  (`EarlyResultKeepsWrongGeometry`). `LatestWins` says exactly when the last geometry offered is the
  latest requested, `RecordTrueIff` when the record is true throughout a run.
- Input sent between loss and recovery opens a stream under the old id; the recovery then accepts frames
  only under the new one and the stream stays open and deaf (`IdsPartExactly`, `RecoveryStrandsStream`).
- A form field whose schema names a table renders an empty state the identity check never visits
  (`UncoveredTableField`); `RenderedDistinctIff` says exactly which passing pages this breaks. An id that
  such a field adds may equal a counted one only where the counted one is not shown, as in the options of
  a select.
- The authored check never visits table empty states, so a key used twice there is found only when the
  page is realized (`EmptyStateKeysUnchecked`); `BindListDistinctIff` is the exact condition.
- A "Load newer" or "Retry" kept from an earlier owner sends that owner's read under the current epoch
  when nothing is in flight (`OwnersIff`), and its records land in the new owner's view (`StrayLands`);
  coverage and the discipline of reads hold all the same.
- Redelivery is not always without effect: two deltas with the same sequence are both applied, in whatever
  order they come again (`EqualSequencesReapply`), and a snapshot that lowers or only repeats the sequence
  lets deltas delivered before it in again (`SnapshotsReopen`). `RedeliveryHarmlessIff` is the exact
  condition; different sequences, exceeded by every later snapshot, meet it in any order of arrival.
- A snapshot without a sequence keeps the old one (`SnapshotForgetsIff`).
- The form keeps an empty relative working directory on purpose, but the wire projection drops it
  (`EditRoundTripIff`), against the comment at `src/app/sessionTypes.ts:369`.
- A surface called `settings`, a session without an id, a hub-settings route without a section and an
  app route without a surface do not survive printing and parsing (`RoundTripIff`).

## Model

| member | source | states |
|---|---|---|
| `TerminalPlaneProofs.InitialOk` | src/botster/hubTerminalDataPlane.ts:156-192 | A new plane satisfies the whole invariant: attachment links, openings, event queues, arrival order, output, Detach debt, re-attach count and the input invariant. |
| `TerminalPlaneProofs.StepOk` | src/botster/hubTerminalDataPlane.ts:216-1508 | Every event (30 kinds: user calls, send-chain continuations, frames, reader results, timeouts, attach progress, loss, recovery, detach) keeps the whole invariant, whatever state it finds. |
| `TerminalPlaneProofs.RunOk` | src/botster/hubTerminalDataPlane.ts:216-1508 | The invariant holds after any sequence of events in any order, late events of old attachments included. |
| `TerminalEffects.AttachmentExact` | src/botster/hubTerminalDataPlane.ts:748-967 | For every event of every reachable state: exactly when the attachment is reset (loss, detach, last listener, quiet close, lost snapshot, failed route), when the next one is asked for and started, when its stream opens, under which id, and what the pending attach becomes. |
| `TerminalRouteEffects.RouteExact` | src/botster/hubTerminalDataPlane.ts:1034-1420 | For every event: the accepted epoch (0 on an admitted ATTACH_STATE attached, the target of an admitted resync, none after a reset or an opening, else as it was), the route generation (first frame, then the reservation), the hydration, the segments and every event queue. |
| `TerminalRouteEffects.FencesReadExact` | src/botster/hubTerminalDataPlane.ts:1136-1164 | In every reachable state the fences are those read off the events of the run. |
| `TerminalRouteEffects.AdmissionOverRuns` | src/botster/hubTerminalDataPlane.ts:1066-1164 | Over every run the segments hold exactly the OUTPUT payloads of the present attachment that passed the generation and the epoch read off what was handled before, and fitted the buffer. |
| `TerminalRouteEffects.ResyncStartsAfresh` | src/botster/hubTerminalDataPlane.ts:1251-1264 | An admitted resync moves to its target epoch, which differs, and starts a fresh unfinished segment and a fresh armed hydration; nothing is delivered. |
| `TerminalLifecycleTheorems.LedgerExact` | src/botster/hubTerminalDataPlane.ts:748-868 | For every event of every run: losses, recoveries, automatic re-attaches and the attachment left behind, and exactly which Detach request is sent: for a stream this side closes, for a public detach not named yet, and for the debt of a recovery. |
| `TerminalHistory.StepLater` | src/botster/hubTerminalDataPlane.ts:216-1508 | No event undoes the past: outcomes, sent frames, deliveries and requests are only appended; finished or replaced output segments are settled; a withdrawn consent stays withdrawn. |
| `TerminalHistory.RunLater` | src/botster/hubTerminalDataPlane.ts:216-1508 | The same from any reachable state along any further run. |
| `TerminalOutputTheorems.AdmissionExact` | src/botster/hubTerminalDataPlane.ts:1066-1098 | Along any event the admitted output grows by exactly one payload if an OUTPUT frame of the current attachment passes the generation and epoch fences and, while the snapshot is restored, the payloads buffered with it are at most 256 of together at most 8 MiB; by nothing otherwise. A segment finishes exactly on a FINISH after READY. |
| `TerminalOutputTheorems.OutputFaithful` | src/botster/hubTerminalDataPlane.ts:1201-1208 | In every reachable state the listeners have received exactly the admitted payloads of the segments (one per attach or resync) that finished or are live after FINISH: whole, once each, in arrival order, byte for byte. |
| `TerminalOutputTheorems.ExitsExact` | src/botster/hubTerminalDataPlane.ts:1210-1218 | Along any event a process exit is announced exactly when its frame passes both fences on a live screen, or when the FINISH that completes the hydration releases the one held; by nothing else. |
| `TerminalOutputTheorems.FinishedInOrder` | src/botster/hubTerminalDataPlane.ts:1400-1420 | Concatenating finished segments keeps arrival order and adds nothing that was not admitted. |
| `TerminalOutputTheorems.EndedHydrationDeliversNothing` | src/botster/hubTerminalDataPlane.ts:885-900 | A hydration that resync, recovery, loss or detach ended before FINISH delivers none of its buffered payloads, however the run goes on. |
| `TerminalOutputTheorems.ReplacedQueueIsInert` | src/botster/hubTerminalDataPlane.ts:979-989 | After an attachment was reset, no waiting frame, install, late reader answer or late reader failure of its event queue changes anything outside that queue. |
| `TerminalOutputTheorems.ReplacedHydrationIgnoresReader` | src/botster/hubTerminalDataPlane.ts:1326-1339 | A reader result whose hydration was replaced within the attachment only frees its queue. |
| `TerminalSettlementTheorems.ExactlyOnePlace` | src/botster/hubTerminalDataPlane.ts:376-386 | In every reachable state each operation ever admitted or appended is in exactly one of queue, window, outcomes and unsent releases, exactly once; one not yet issued is in none. |
| `TerminalSettlementTheorems.StaleChainIsInert` | src/botster/hubTerminalDataPlane.ts:446-506 | Although ids restart at 1, no late continuation of the send chain of another attachment settles an operation, frees a window slot or reaches another stream. |
| `TerminalSettlementTheorems.StaleLinkUnheld` | src/botster/hubTerminalDataPlane.ts:519-525 | No link of another generation is the operation the window holds under its id. |
| `TerminalSettlementTheorems.OutcomesExact` | src/botster/hubTerminalDataPlane.ts:518-623 | Exactly the outcomes of every event: a matching INPUT_RESULT settles the operation in flight under its id, a failed send its own operation while still in flight, a reset everything in flight as unknown and everything queued as cancelled, in that order; nothing else settles anything. |
| `TerminalInputEffects.LineExact` | src/botster/hubTerminalDataPlane.ts:376-446 | For every event the line of operations waiting and in flight, RESIZE apart, is what it was, longer by exactly the entry the event admits, shorter by what it settles, empty after a reset: in admission order throughout. |
| `TerminalInputEffects.WindowIsUsed` | src/botster/hubTerminalDataPlane.ts:427-446 | In every reachable state with an open, answered attachment nothing waits while fewer than 32 operations are in flight, and a RESIZE that is wanted is in flight. |
| `TerminalInputEffects.ResizeAppended` | src/botster/hubTerminalDataPlane.ts:404-424 | A RESIZE is appended only where one is wanted: on the attached stream of a live screen whose last geometry sent is not the latest. |
| `TerminalInputEffects.FieldsExact` | src/botster/hubTerminalDataPlane.ts:243-386 | For every event: what is refused and why, what is confirmed under which refusal, the paste attempt and the wanted geometry. |
| `TerminalSettlementTheorems.PumpKeepsLogs` | src/botster/hubTerminalDataPlane.ts:419-430 | Pumping settles nothing, sends nothing and leaves consent and geometry alone. |
| `TerminalWireTheorems.WireShape` | src/botster/hubTerminalDataPlane.ts:446-500 | On every stream the offered frames are, in strictly increasing operation id, for each operation a non-empty prefix of its frames and at most one abort, only after a paste that had begun: frames of two operations never interleave. |
| `TerminalSendTheorems.WireExact` | src/botster/hubTerminalDataPlane.ts:446-500 | Exactly the frames of every event on every stream: the first of a link that starts on the open stream, the next after one was accepted, an abort after a rejected one of a paste that had begun while its stream is open, nothing else; and what becomes of the chain. |
| `TerminalSendTheorems.WholeOrRejected` | src/botster/hubTerminalDataPlane.ts:480-506 | Over every run each operation offered to a stream has all its frames offered, COMMIT included, unless the stream rejected the last one offered or that one is still awaited. |
| `TerminalSendTheorems.AbortedIff` | src/botster/hubTerminalDataPlane.ts:484-491 | Over every run an abort went out for a paste if and only if a frame of it after the first was rejected while its stream was open. |
| `TerminalSendTheorems.NothingDropped` | src/botster/hubTerminalDataPlane.ts:433-500 | In every reachable state each operation in flight has its link in the send chain or a frame on its stream. |
| `TerminalSendTheorems.FramesCover` | src/botster/hubTerminalDataPlane.ts:475-483 | A paste is BEGIN, the least number of chunks of 65531 bytes that carry it, and COMMIT; everything else is one frame. |
| `TerminalWireTheorems.AdmissionOrder` | src/botster/hubTerminalDataPlane.ts:419-430 | On every stream all operations but RESIZE appear in the order they were admitted. |
| `TerminalWireTheorems.InputBounds` | src/botster/hubTerminalDataPlane.ts:376-386 | In every reachable state: at most 32 in flight, 256 queued, one RESIZE; queued, in-flight and consent bytes without RESIZE within 2 MiB, with it within 2 MiB plus 12. |
| `TerminalWireTheorems.UnsafePasteWasRefused` | src/botster/hubTerminalDataPlane.ts:529-556 | Every frame of an unsafe paste on any stream stands for bytes refused on that very attachment with nothing accepted and nothing written. |
| `TerminalWireTheorems.OnePastePerRefusal` | src/botster/hubTerminalDataPlane.ts:333-360 | Two unsafe pastes never stand on the same refusal. |
| `TerminalWireTheorems.ConsentIsCurrent` | src/botster/hubTerminalDataPlane.ts:529-556 | A pending consent is of the present attachment, for the bytes of the latest paste attempt that was refused whole, and its refusal has let nothing through. |
| `TerminalInputEffects.PendingExact` | src/botster/hubTerminalDataPlane.ts:284-368 | The pending consent after every event: withdrawn by a reset, by any paste attempt, by its own confirmation, cancellation or expiry and by a resync, granted by a refusal, otherwise as it was. |
| `TerminalInputEffects.WithdrawnExactly` | src/botster/hubTerminalDataPlane.ts:362-368 | Cancelling a consent or letting it expire withdraws that one and no other. |
| `TerminalInputEffects.CancelledNeverConfirms` | src/botster/hubTerminalDataPlane.ts:333-368 | Once a consent was cancelled, expired or resynced away, no later confirmation names the refusal it answered, however the run goes on. |
| `TerminalWireTheorems.WithdrawnConsentIsDead` | src/botster/hubTerminalDataPlane.ts:362-368 | Once no consent is pending (used, cancelled, expired, resynced, replaced), every later confirmation answers a later refusal. |
| `TerminalWireTheorems.ConsentGrantedExactly` | src/botster/hubTerminalDataPlane.ts:529-556 | An INPUT_RESULT of this attachment grants a consent, for 30 seconds and for those bytes, if and only if the operation in flight under its id is the latest paste attempt and was refused as unsafe with nothing accepted and nothing written; otherwise the pending consent stays as it was. |
| `TerminalWireTheorems.ConfirmAdmitsExactly` | src/botster/hubTerminalDataPlane.ts:333-360 | Confirming admits the paste if and only if the consent is the pending one, its attachment is current, it has not expired, and queue and byte bounds leave room after its own bytes are freed. |
| `TerminalGeometryTheorems.NeverDue` | src/botster/hubTerminalDataPlane.ts:404-430 | In no reachable state is anything left due: attached with room in the window, nothing admitted waits in the queue; hydrated as well with no RESIZE outstanding, the geometry recorded as sent is the latest requested. |
| `TerminalGeometryTheorems.ResizesOffered` | src/botster/hubTerminalDataPlane.ts:454-471 | Along any event of any reachable state a stream is offered a geometry exactly when a RESIZE link starts on the current attachment: the latest one, if the screen is hydrated and it changed, or, if the host answered that RESIZE before it was sent, the one it was appended with. |
| `TerminalGeometryTheorems.LatestWins` | src/botster/hubTerminalDataPlane.ts:404-417 | After any run that ends attached and hydrated, with room in the window and no RESIZE outstanding: the last geometry the stream was offered is the latest requested if and only if the last event that offered it one did not mislead, that is, did not start a RESIZE that had lost its slot with another geometry than the one recorded as sent. |
| `TerminalGeometryTheorems.RecordedLastIff` | src/botster/hubTerminalDataPlane.ts:454-471 | In every reachable state, if the present stream was offered any geometry, the last one is the one recorded as sent if and only if the event that offered it did not mislead; if it was offered none, none is recorded. |
| `TerminalGeometryTheorems.HeldStartsSuffice` | src/botster/hubTerminalDataPlane.ts:404-417 | When each RESIZE that started held its slot, the last geometry offered is the latest requested in the states of LatestWins, and no stream is offered the same one twice in a row. |
| `TerminalGeometryTheorems.RecordTrueIff` | src/botster/hubTerminalDataPlane.ts:454-471 | The geometry recorded as sent is what the stream was offered last, with no repetition, in every state of a run if and only if every RESIZE that started in it held its slot. |
| `TerminalGeometryTheorems.PromptSuffices` | src/botster/hubTerminalDataPlane.ts:515-527 | A host that answers no RESIZE before it was sent never lets one start without its slot. |
| `TerminalGeometryTheorems.RecordStepIff` | src/botster/hubTerminalDataPlane.ts:454-471 | A true record stays true along an event if and only if the event does not start a RESIZE that lost its slot. |
| `TerminalEarlyResult.EarlyResultKeepsWrongGeometry` | src/botster/hubTerminalDataPlane.ts:515-527 | A run in which the host answers one RESIZE before it was sent and the size before it is requested again: everything is sent and answered, that size is wanted and recorded as sent, no RESIZE is due, and the stream was offered the other one last. |
| `TerminalEarlyResult.EarlyResultRepeatsGeometry` | src/botster/hubTerminalDataPlane.ts:515-527 | A run in which the host answers a RESIZE before it was sent: it starts without its slot and the stream is offered the same geometry twice in a row. |
| `TerminalLifecycleTheorems.DetachAndReattachOnce` | src/botster/hubTerminalDataPlane.ts:996-1027 | In every reachable state all Detach requests name different attachments, all of them over, and automatic re-attaches belong to different recovery epochs. |
| `TerminalLifecycleTheorems.DetachIsFinal` | src/botster/hubTerminalDataPlane.ts:748-763 | After a public detach there is no further attach, stream, Detach or re-attach, however the run goes on. |
| `TerminalLifecycleTheorems.RecoveryDetachesExactly` | src/botster/hubTerminalDataPlane.ts:774-850 | Over every run a recovery to a fresh id sends one Detach, for the attachment the last loss left behind, if and only if the Attach of that attachment had left or been answered in the run. |
| `TerminalLifecycleTheorems.LeftOverRuns` | src/botster/hubTerminalDataPlane.ts:774-796 | In every reachable state the flags of the open and of the abandoned attachment say exactly whether its Attach left or was answered in the run. |
| `TerminalLifecycleTheorems.FreshIds` | src/botster/hubTerminalDataPlane.ts:802-842 | A lost snapshot and a recovery move to an id under which no stream of the run was opened, and the re-attach goes on under it. |
| `TerminalLifecycleTheorems.FlagIsLogged` | src/botster/hubTerminalDataPlane.ts:996-999 | The once-flag of Detach always names a request that was made. |
| `TerminalLifecycleTheorems.IdsPartExactly` | src/botster/hubTerminalDataPlane.ts:802-809 | The id of the open stream and the id whose frames are accepted part exactly when a recovery mints an id while a stream is open. |
| `TerminalLifecycleTheorems.RecoveryStrandsStream` | src/botster/hubTerminalDataPlane.ts:802-809 | Such a run: input sent between loss and recovery opens a stream under the old id. |
| `TerminalLifecycleTheorems.StrandedStreamIsDeaf` | src/botster/hubTerminalDataPlane.ts:1060-1063 | Every frame of a stranded stream is dropped without effect. |
| `HubTerminalDataPlane.OrderedRemoves` | src/botster/hubTerminalDataPlane.ts:519-527 | Deleting an id from the window map takes exactly its operation out of the ordered window. |
| `HubTerminalDataPlane.Lookup` | src/botster/hubTerminalDataPlane.ts:609-611 | Looking an id up in the map finds the operation the ordered window holds under it. |
| `HubTerminalDataPlane.DataPlane.constructor` | src/botster/hubTerminalDataPlane.ts:156-192 | A new object is valid and is the initial state. |
| `HubTerminalDataPlane.DataPlane.AppendOperation` | src/botster/hubTerminalDataPlane.ts:433-446 | The entry takes the next id, a window slot and the last link of the send chain; the in-flight counter stays the sum of the window. |
| `HubTerminalDataPlane.DataPlane.MaybeSendGeometry` | src/botster/hubTerminalDataPlane.ts:404-417 | Appends the one RESIZE exactly when one is due; counters stay sums. |
| `HubTerminalDataPlane.DataPlane.PumpInputs` | src/botster/hubTerminalDataPlane.ts:419-430 | The loop fills the window from the queue in order until it is full or the queue empty; counters stay sums. |
| `HubTerminalDataPlane.DataPlane.ReleaseUnsentOperation` | src/botster/hubTerminalDataPlane.ts:511-516 | Frees the slot of an operation not sent; counters stay sums. |
| `HubTerminalDataPlane.DataPlane.ReleaseUnsafePasteConsent` | src/botster/hubTerminalDataPlane.ts:1266-1272 | Drops the consent and its bytes: the consent counter is zero exactly then, so the accounting assertion holds. |
| `HubTerminalDataPlane.DataPlane.PublishSettled` | src/botster/hubTerminalDataPlane.ts:518-572 | The settled operation leaves the window with one outcome and, if refused unsafe, grants the consent with its bytes. |
| `HubTerminalDataPlane.DataPlane.SettleInflight` | src/botster/hubTerminalDataPlane.ts:518-573 | An operation no longer held is left alone; otherwise it settles and the pump continues. |
| `HubTerminalDataPlane.DataPlane.SettleAllUnknown` | src/botster/hubTerminalDataPlane.ts:575-578 | The loop over the window settles everything in flight as unknown, in id order. |
| `HubTerminalDataPlane.DataPlane.CancelQueue` | src/botster/hubTerminalDataPlane.ts:579-588 | The loop over the queue cancels everything queued, in order. |
| `HubTerminalDataPlane.DataPlane.AbandonInputs` | src/botster/hubTerminalDataPlane.ts:575-596 | After both loops, the zeroed counters are the sums of what is held, ids restart at 1, sent geometry and consent are gone. |
| `HubTerminalDataPlane.DataPlane.ResetAttachmentState` | src/botster/hubTerminalDataPlane.ts:871-883 | A reset bumps the generation, replaces both promise chains, drops stream, fences and hydration and abandons the input. |
| `HubTerminalDataPlane.DataPlane.CloseStream` | src/botster/hubTerminalDataPlane.ts:858-868 | Closing an open stream owes one Detach for it, then resets. |
| `HubTerminalDataPlane.DataPlane.SendDetachRequestOnce` | src/botster/hubTerminalDataPlane.ts:996-1027 | One Detach per attachment; after a public detach one per subscription id. |
| `HubTerminalDataPlane.DataPlane.EnsureAttached` | src/botster/hubTerminalDataPlane.ts:902-935 | Starts one attach unless one is pending or a stream is open; a new attach restarts the ids. |
| `HubTerminalDataPlane.DataPlane.ResumeAttach` | src/botster/hubTerminalDataPlane.ts:936-967 | The attach opens the stream and its hydration only while it is current and listened to. |
| `HubTerminalDataPlane.DataPlane.StreamReady` | src/botster/hubTerminalDataPlane.ts:968-976 | The reservation fixes the route generation and the hydration bound is armed, on the current attachment only. |
| `HubTerminalDataPlane.DataPlane.HandleTransportLost` | src/botster/hubTerminalDataPlane.ts:774-796 | One loss per attachment: the first records the Detach debt and resets, a repeat changes nothing. |
| `HubTerminalDataPlane.DataPlane.HandleTransportRecovered` | src/botster/hubTerminalDataPlane.ts:802-850 | A recovery mints an id, pays or drops the debt, and attaches or waits for the Detach. |
| `HubTerminalDataPlane.DataPlane.ContinueRecovery` | src/botster/hubTerminalDataPlane.ts:841-842 | The attach after the stale Detach settled, unless detached or unheard meanwhile. |
| `HubTerminalDataPlane.DataPlane.Detach` | src/botster/hubTerminalDataPlane.ts:748-763 | The public detach resets first and then sends the one Detach for the id and generation held before. |
| `HubTerminalDataPlane.DataPlane.RecoverRoute` | src/botster/hubTerminalDataPlane.ts:1429-1447 | One fresh attach under a new id for a lost snapshot; a second loss before the next recovery fails the route. |
| `HubTerminalDataPlane.DataPlane.HydrationProgressExpired` | src/botster/hubTerminalDataPlane.ts:1455-1466 | An armed bound of the running hydration recovers the route once. |
| `HubTerminalDataPlane.DataPlane.SubscribeOutput` | src/botster/hubTerminalDataPlane.ts:629-646 | A first listener attaches; on a detached plane a listener never attaches. |
| `HubTerminalDataPlane.DataPlane.Unsubscribe` | src/botster/hubTerminalDataPlane.ts:648-655 | The last listener to leave closes the stream. |
| `HubTerminalDataPlane.DataPlane.EnqueueInput` | src/botster/hubTerminalDataPlane.ts:376-386 | Admits exactly within 256 operations and 2 MiB of retained bytes, reserves the bytes and pumps. |
| `HubTerminalDataPlane.DataPlane.SendInput` | src/botster/hubTerminalDataPlane.ts:243-265 | A refused operation is reported once and retains nothing. |
| `HubTerminalDataPlane.DataPlane.Resize` | src/botster/hubTerminalDataPlane.ts:267-274 | The latest geometry replaces the one wanted before; the pump sends it when it can. |
| `HubTerminalDataPlane.DataPlane.WritePaste` | src/botster/hubTerminalDataPlane.ts:284-321 | A paste attempt withdraws any consent first; empty, detached, oversized and out-of-bounds pastes are refused in that order. |
| `HubTerminalDataPlane.DataPlane.ConfirmUnsafePaste` | src/botster/hubTerminalDataPlane.ts:333-360 | A matching consent is consumed whether or not its paste is admitted. |
| `HubTerminalDataPlane.DataPlane.CancelUnsafePaste` | src/botster/hubTerminalDataPlane.ts:362-368 | Only the matching consent is withdrawn. |
| `HubTerminalDataPlane.DataPlane.RunLink` | src/botster/hubTerminalDataPlane.ts:446-479 | The link of a replaced attachment or stream settles cancelled unsent; the RESIZE of the slot reads the latest geometry or frees its slot; anything else offers its first frame. |
| `HubTerminalDataPlane.DataPlane.FrameAccepted` | src/botster/hubTerminalDataPlane.ts:480-483 | The next frame of the same operation is offered, or the link ends. |
| `HubTerminalDataPlane.DataPlane.FrameRejected` | src/botster/hubTerminalDataPlane.ts:484-491 | A paste that stopped after its first frame offers one abort on the same stream; everything else fails. |
| `HubTerminalDataPlane.DataPlane.CatchLink` | src/botster/hubTerminalDataPlane.ts:500-506 | The failed operation settles cancelled if it is still held. |
| `HubTerminalDataPlane.DataPlane.AdmitRouteGeneration` | src/botster/hubTerminalDataPlane.ts:1136-1142 | The first generation seen, or the reserved one, is the only one admitted. |
| `HubTerminalDataPlane.DataPlane.AdmitsStreamEpoch` | src/botster/hubTerminalDataPlane.ts:1153-1164 | ATTACH_STATE and INPUT_RESULT pass; a resync passes only from the accepted epoch to its own different one; everything else needs the accepted epoch. |
| `HubTerminalDataPlane.DataPlane.ReceiveOutput` | src/botster/hubTerminalDataPlane.ts:1201-1208 | A payload of a running hydration is buffered and counted, or recovers the route when the counter says it does not fit; otherwise it is delivered. |
| `HubTerminalDataPlane.DataPlane.CompleteHydration` | src/botster/hubTerminalDataPlane.ts:1400-1420 | FINISH delivers the buffer in order, then a held process exit, then pumps. |
| `HubTerminalDataPlane.DataPlane.ReceiveSnapshotFinish` | src/botster/hubTerminalDataPlane.ts:1379-1398 | FINISH before READY fails the route; a second FINISH changes nothing. |
| `HubTerminalDataPlane.DataPlane.ReceiveHistoryUnavailable` | src/botster/hubTerminalDataPlane.ts:1228-1242 | Before READY it fails the route, after it the history is incomplete. |
| `HubTerminalDataPlane.DataPlane.ReceiveRouteResync` | src/botster/hubTerminalDataPlane.ts:1251-1264 | A resync starts a new hydration under the new epoch and withdraws the consent; in-flight input stays. |
| `HubTerminalDataPlane.DataPlane.ReceiveAttachState` | src/botster/hubTerminalDataPlane.ts:1166-1193 | `attached` sets epoch 0 and pumps; a failure before READY recovers the route, after it fails it. |
| `HubTerminalDataPlane.DataPlane.HandleInputResult` | src/botster/hubTerminalDataPlane.ts:598-623 | An unknown or settled id, or one of another attachment, changes nothing. |
| `HubTerminalDataPlane.DataPlane.EmitTerminalEvent` | src/botster/hubTerminalDataPlane.ts:1034-1064 | The next event of a queue takes effect only on the current attachment and under its subscription id. |
| `HubTerminalDataPlane.DataPlane.StartInstall` | src/botster/hubTerminalDataPlane.ts:1302-1326 | The install order and hydration checks, before the reader is called. |
| `HubTerminalDataPlane.DataPlane.ReaderResolved` | src/botster/hubTerminalDataPlane.ts:1340-1376 | What READY, PAGE, FINISH and unknown progress do to the hydration still current. |
| `HubTerminalDataPlane.DataPlane.ReaderRejected` | src/botster/hubTerminalDataPlane.ts:1331-1337 | A reader failure recovers the route only for the hydration still current. |
| `UiNodeReach.NodeReached` | src/botster/IonicUiNodeRenderer.tsx:499-583 | The check notes exactly one mark for every path that leads somewhere: through every part a node of its kind shows, every child there, and every record of a list or a bind list; paths are told without the traversal. |
| `UiNodeReach.PassesIff` | src/botster/IonicUiNodeRenderer.tsx:585-596 | The check passes if and only if no path leads to an identity that cannot be realized and no two different paths lead to the same identity. |
| `UiNodeReach.RenderedIff` | src/botster/IonicUiNodeRenderer.tsx:1656-1675 | Without selects and form-field controls the renderer emits the identities of all paths, once each: they are distinct if and only if no two different paths lead to the same one. |
| `UiNodeReach.PartsRead` | src/botster/IonicUiNodeRenderer.tsx:1657-1675 | A slot is the first one under its name; the children are the own ones and then those of the slot `children`. |
| `UiNodeReach.IdentitiesRead` | src/botster/IonicUiNodeRenderer.tsx:277-303 | What each kind of authored identity comes to in a row. |
| `UiNodeReach.RootsRead` | src/botster/IonicUiNodeRenderer.tsx:365-388 | A template root is refused in a row if and only if it is a descendant; a row binding takes the text of the row or is left out. |
| `UiNodeIdentity.NodeEven` | src/botster/IonicUiNodeRenderer.tsx:1178-1654 | For every node, in every row, through slots, list rows, bind_list rows, bind_if, presentation_if, hidden/show, form controls and table empty states: the ids the renderer emits, with multiplicity, are those the check counts, plus those form controls add, minus those nothing shows. |
| `UiNodeIdentity.RenderedDistinctIff` | src/botster/IonicUiNodeRenderer.tsx:1656-1675 | For every page that passes the check: the rendered ids are distinct if and only if the ids the controls of form fields add are distinct and the check counts none of them except where nothing shows it. |
| `UiNodeIdentity.CountedAndAddedDecide` | src/botster/IonicUiNodeRenderer.tsx:1656-1675 | When the page counts no id that is not shown: the rendered ids are distinct if and only if the counted and the added ids together are. |
| `UiNodeIdentity.NodeWithin` | src/botster/IonicUiNodeRenderer.tsx:1178-1654 | When no form field schema names a table or a form field: the ids the renderer emits for a node, with multiplicity, are among those the check counts. |
| `UiNodeIdentity.ListItemEven` | src/botster/IonicUiNodeRenderer.tsx:561-566 | List items render children before meta and actions, the check visits them last: the same ids are counted. |
| `UiNodeIdentity.RenderedIdsDistinct` | src/botster/IonicUiNodeRenderer.tsx:1656-1675 | If the identity check passes and no form field schema names a table or a form field, the ids the renderer emits are pairwise distinct, for every store, row and predicate. |
| `UiNodeIdentity.UncoveredTableField` | src/botster/IonicUiNodeRenderer.tsx:1569-1592 | A page that passes the check and emits one id twice, through such a field. |
| `UiNodeIdentity.DistinctWithin` | src/botster/IonicUiNodeRenderer.tsx:591-595 | Fewer texts, with multiplicity, of a list of distinct ones are distinct. |
| `UiNodes.ResolveNodeSize` | src/botster/IonicUiNodeRenderer.tsx:268-275 | Resolving props keeps the size of an authored node, so both traversals terminate. |
| `UiNodeChecker.IdentityCheck.Note` | src/botster/IonicUiNodeRenderer.tsx:514-515 | The map counts the locations of every id noted. |
| `UiNodeChecker.IdentityCheck.ResolveTemplate` | src/botster/IonicUiNodeRenderer.tsx:365-388 | The loop over the rows of a bind list resolves and rejects exactly as the expression does. |
| `UiNodeChecker.IdentityCheck.VisitChildren` | src/botster/IonicUiNodeRenderer.tsx:507-513 | The walk notes the issues and ids of the children, in order. |
| `UiNodeChecker.IdentityCheck.VisitNode` | src/botster/IonicUiNodeRenderer.tsx:514-583 | The walk notes exactly the issues and ids of the specified traversal. |
| `UiNodeChecker.IdentityCheck.RealizedIdentityIssue` | src/botster/IonicUiNodeRenderer.tsx:499-596 | Reports nothing if and only if no identity was rejected and no id counted twice. Then the rendered ids are distinct if and only if the condition of RenderedDistinctIff holds, as it does when no form field schema names a table or a form field. |
| `UiNodeIdentity.CountsDecide` | src/botster/IonicUiNodeRenderer.tsx:591-595 | No count above one if and only if the ids are distinct. |
| `BindListIdentity.NotRepeated` | src/botster/IonicUiNodeRenderer.tsx:460-465 | The key map has a key with two locations exactly when the keys are not distinct. |
| `BindListIdentity.NodeBounded` | src/botster/IonicUiNodeRenderer.tsx:290-303 | Walking a template without nested bind lists in one row realizes each of its keys, those in table empty states as resolved in that row included, at most as often as the template has it there, each id derived from that row. |
| `BindListIdentity.BindListDistinctIff` | src/botster/IonicUiNodeRenderer.tsx:417-497 | For every template without nested bind lists, when row ids are distinct and not blank and derivation is injective and avoids them: all row and descendant ids of the bind list are pairwise distinct if and only if no row realizes a key twice. |
| `BindListIdentity.BindListKeysSuffice` | src/botster/IonicUiNodeRenderer.tsx:290-303 | It suffices that in each row the keys of the template, those in resolved table empty states included, are distinct. |
| `BindListIdentity.BindListIdsDistinct` | src/botster/IonicUiNodeRenderer.tsx:417-497 | So if the authored check accepts a template whose tables have no empty state, all row and descendant ids are pairwise distinct. |
| `BindListRepeats.RepeatsCollide` | src/botster/IonicUiNodeRenderer.tsx:290-303 | For a template shown in full in every row (nodes supported, conditions met, kinds that show their children, no slots): the ids are distinct if and only if in no row the template has a key twice, empty states as resolved in that row included. |
| `BindListRepeats.AuthoredCheckExact` | src/botster/IonicUiNodeRenderer.tsx:460-465 | For such a template without empty states and with at least one row, the authored check of repeated keys is exact: ids collide if and only if it reports them. |
| `BindListRepeats.AuthoredIssuesExact` | src/botster/IonicUiNodeRenderer.tsx:417-458 | For a template whose nodes are shown in a bound row: all its identities are realized if and only if the authored check reports none of them and no row binding without a path stands below its root. |
| `BindListRepeats.RootReportedIff` | src/botster/IonicUiNodeRenderer.tsx:417-430 | The authored check reports the root of a template if and only if its rows refuse it. |
| `BindListIdentity.EmptyStateKeysUnchecked` | src/botster/IonicUiNodeRenderer.tsx:454-458 | The authored check does not look into table empty states: it accepts the same key twice there, and the realized ids then collide. |
| `PluginLogs.SortSorts` | src/botster/pluginLogs.ts:97 | Sorting orders the records and keeps them all. |
| `PluginLogs.FirstPageCovers` | src/botster/pluginLogs.ts:96-107 | After a first or reset page every seq up to the cursor is held exactly once or in exactly one evicted range. |
| `PluginLogs.NextPageCovers` | src/botster/pluginLogs.ts:118-140 | A page of the held log read at the cursor keeps that, and appends exactly its records. |
| `PluginLogs.RestartIsTold` | src/botster/pluginLogs.ts:118-140 | A page of another log asks for a reset and changes nothing; the reset replaces the view and says so until the next page of that log. |
| `PluginLogReader.RefusedIsRetried` | src/app/usePluginLogs.ts:53-62 | A refused read of the current epoch is kept and a retry sends the very same read. |
| `PluginLogReader.LandedThenNewer` | src/app/usePluginLogs.ts:51-73 | A landed page is applied, and the next Load newer sends a read at the cursor it left. |
| `PluginLogReader.ClosedIgnoresAll` | src/app/usePluginLogs.ts:100-103 | After the clean-up no read on its way is of the reader's epoch, and none of their answers changes the view. |
| `PluginLogReader.CoverageOverRuns` | src/app/usePluginLogs.ts:45-119 | For any interleaving of appends, evictions, restarts, removals, answers, refusals, owner changes and callbacks of any render: the view is of one log, each record is that log's, and every number up to the cursor is held once or in one evicted range. |
| `PluginLogReader.ReadsOverRuns` | src/app/usePluginLogs.ts:45-119 | At most one read of the current epoch is pending; it is at the cursor (or a reset from 0), retries, follow-ups and callbacks of any render included. |
| `PluginLogReader.StaleAnswerIgnored` | src/app/usePluginLogs.ts:51 | An answer or refusal of an older epoch changes nothing and asks for nothing. |
| `PluginLogReader.ResetNeverChains` | src/app/usePluginLogs.ts:66-71 | A reset read never asks for another read. |
| `PluginLogReader.OwnersIff` | src/app/usePluginLogs.ts:106-116 | View and reads of the current epoch stay the present owner's along an event if and only if it is not stray: a Load newer of another owner with nothing in flight, or a Retry of another owner with nothing in flight and a refused read kept. |
| `PluginLogReader.OwnersOverRunsIff` | src/app/usePluginLogs.ts:45-119 | In every state of a run the view and the reads of the current epoch are the present owner's if and only if no event of the run is stray. |
| `PluginLogReader.StrayLands` | src/app/usePluginLogs.ts:106-110 | From any state owned throughout with nothing in flight, a Load newer kept from another owner, once answered, puts that owner's record into the present view. |
| `PluginLogReader.PluginLogsHook.Open` | src/app/usePluginLogs.ts:93-99 | A new owner starts empty and sends the first read. |
| `PluginLogReader.PluginLogsHook.Close` | src/app/usePluginLogs.ts:100-103 | Clean-up ends the epoch. |
| `PluginLogReader.PluginLogsHook.LoadNewer` | src/app/usePluginLogs.ts:106-110 | Sends the read at the cursor unless one is in flight. |
| `PluginLogReader.PluginLogsHook.Retry` | src/app/usePluginLogs.ts:112-116 | Repeats exactly the refused read unless one is in flight. |
| `PluginLogReader.PluginLogsHook.Land` | src/app/usePluginLogs.ts:51-73 | Applies a page of the current epoch and sends its follow-up. |
| `PluginLogReader.PluginLogsHook.Refuse` | src/app/usePluginLogs.ts:53-62 | Keeps the refused read of the current epoch for a retry. |
| `EntityDemand.CountsAgree` | src/app/usePluginRouteState.ts:77-105 | After any sequence of claims, rendered surfaces and exits a generic family has count 1 exactly while the claimed route holds it, else 0. |
| `EntityDemand.DemandIsRendered` | src/app/usePluginRouteState.ts:77-105 | After any sequence of route events the families held are exactly those of the surface rendered last for the route claimed last, and a generic family has count 1 exactly if that surface names it. |
| `EntityDemand.StaleRenderIgnored` | src/app/usePluginRouteState.ts:149-160 | A surface rendered for a route no longer claimed demands and releases nothing. |
| `EntityDemand.HubTransport.EntityPull` | src/botster/hubTransport.ts:308-344 | Counts one more for a generic family; the held subscriptions are exactly the map's, none is closed. |
| `EntityDemand.HubTransport.EntityRelease` | src/botster/hubTransport.ts:259-270 | Counts one less; the last release closes the subscription, which was never closed before; session families stay. |
| `EntityDemand.RouteDemand.SyncEntityOptionsDemand` | src/app/usePluginRouteState.ts:77-105 | The messages of one synchronisation, sent one by one, change claim and counts as the specification does all at once. |
| `EntityDemand.RouteDemand.DemandAll` | src/app/usePluginRouteState.ts:95-97 | One pull per family, in whatever order, adds one to each. |
| `EntityDemand.RouteDemand.ReleaseEach` | src/app/usePluginRouteState.ts:98-100 | One release per family, in whatever order. |
| `EntityStore.ApplyExact` | src/botster/entities.ts:60-103 | What a family holds after any frame, record by record (a snapshot keeps the last one per id, a patch lays its fields over the old ones, every other record stays) and in which order, and its sequence. |
| `EntityStore.FamiliesCommute` | src/botster/entities.ts:60-103 | Frames of different families commute. |
| `EntityStore.FamilyAlone` | src/botster/entities.ts:60-103 | What a family ends as depends on its own frames alone, in their order. |
| `EntityStore.SnapshotForgetsIff` | src/botster/entities.ts:61-75 | A snapshot erases what was before it if and only if it is sequenced, or the sequences kept from before agree. |
| `EntityStore.SnapshotStartsAfresh` | src/botster/entities.ts:61-75 | Everything before a sequenced snapshot is irrelevant for its family in any later state. |
| `EntityStore.ReapplyIff` | src/botster/entities.ts:77-103 | A sequenced delta changes nothing if and only if it is stale, carries no record, or has the sequence of the family and finds its record as it would leave it. |
| `EntityStore.RedeliveryHarmlessIff` | src/botster/entities.ts:145-163 | From any store that holds each id once, for sequenced frames in any order of arrival: every delta may come again at any later point without effect if and only if, for each delta, every later snapshot of its family has a larger sequence, or the same with its record as the delta leaves it, and every later delta with its sequence is stale on arrival or leaves the record as it did. |
| `EntityStore.RunKeyed` | src/botster/entities.ts:61-75 | Frames keep a store that holds each id once so. |
| `EntityStore.ApartIsGuarded` | src/botster/entities.ts:145-163 | It suffices that the deltas of a family have different sequences, in any order of arrival, and each snapshot a larger one than the deltas delivered before it. |
| `EntityStore.RedeliveryChangesNothing` | src/botster/entities.ts:77-103 | Under that condition any number of redeliveries, anywhere in the stream, gives the store of exactly-once delivery: all families, records in the same order. |
| `EntityStore.EqualSequencesReapply` | src/botster/entities.ts:145-152 | With equal sequences an older delta that comes again undoes a newer one. |
| `EntityStore.SnapshotsReopen` | src/botster/entities.ts:61-75 | After a snapshot that lowers the sequence, or repeats it, a delta delivered before it applies again. |
| `EntityStore.InMemoryEntityFrameStore.Apply` | src/botster/entities.ts:60-103 | One frame changes its own family as specified and no other. |
| `EntityStore.InMemoryEntityFrameStore.ApplySnapshot` | src/botster/entities.ts:61-75 | The loop builds the table with one record per id, the last one, at its first place. |
| `EntityStore.InMemoryEntityFrameStore.RecordSequence` | src/botster/entities.ts:154-163 | The recorded sequence never falls. |
| `HubQuarantines.KeysAreTheTargets` | src/botster/hubQuarantines.ts:33-35 | Two targets share a row key only when they are the same target. |
| `HubQuarantines.RowsAlone` | src/botster/hubQuarantines.ts:78-117 | An event on one row leaves every other row alone. |
| `HubQuarantines.RowBelongsToLastStarted` | src/botster/hubQuarantines.ts:78-117 | For any interleaving a row is what the events of the operation last started on it give alone. |
| `HubQuarantines.OrdersAgreeIff` | src/botster/hubQuarantines.ts:93-117 | A result and the refresh of a pending operation give the same row in either order if and only if the result says pending or refreshing, or what the refresh says. |
| `HubQuarantines.ShownForItsListing` | src/botster/hubQuarantines.ts:123-129 | An outcome is shown only for the listing its operation was started for. |
| `FormValues.TokensRoundTripIff` | src/app/values.ts:34-39 | Parsing a printed list gives it back if and only if no entry is empty or holds white space or a comma. |
| `FormValues.ParsedAreTokens` | src/app/values.ts:34-39 | Whatever was typed, the parsed entries are not empty and free of delimiters. |
| `FormValues.EntriesRoundTripIff` | src/app/values.ts:61-82 | Parsing a printed environment gives it back if and only if every key is trimmed, not empty and without `=` or line feed and every value trimmed and without line feed. |
| `FormValues.ParsedAreCarried` | src/app/values.ts:68-82 | Whatever was typed, the parsed entries are of that kind. |
| `SessionTypes.SeedsSurvive` | src/app/values.ts:88-103 | An untouched form builds the lists it was opened with, whatever their entries hold. |
| `SessionTypes.EditsKeepOtherLists` | src/app/values.ts:88-103 | Editing other controls changes none of traits, arguments, overrides, context and environment whose text was left alone; an edited text gives only what its format can carry. |
| `SessionTypes.EditRoundTripIff` | src/app/sessionTypes.ts:364-472 | Opening and saving a complete definition gives it back up to the stated defaults if and only if its texts carry no outer white space and a relative working directory has a trimmed path that is not empty. |
| `SessionTypes.WorkingDirectorySaved` | src/app/sessionTypes.ts:387-397 | The working directory the form builds from an opened definition. |
| `Routing.DecodeEncode` | src/app/routing.ts:95-102 | Percent-decoding inverts percent-encoding (section 2.1 of RFC 3986), and an encoded segment holds no slash and is empty only for the empty text. |
| `Routing.AppsRoundTrip` | src/app/routing.ts:56-68 | An app route survives printing and parsing if and only if it is a settings route or its surface is not empty and not `settings`. |
| `Routing.RoundTripIff` | src/app/routing.ts:27-104 | The parser inverts the printer on a route if and only if the route is canonical. |
| `Routing.OldAddresses` | src/app/routing.ts:28-52 | Old package addresses and the pages that became settings sections lead to the routes of today. |
| `WheelSteps.ForwardEvent` | src/botster/terminalInputEvents.ts:310-325 | A forward event emits 0 to 3 steps, pixels are conserved, the remainder is not negative and less than a cell unless the burst was capped. |
| `WheelSteps.BackwardEvent` | src/botster/terminalInputEvents.ts:310-325 | The mirror image for a backward event. |
| `WheelSteps.ModesAgree` | src/botster/terminalInputEvents.ts:266-274 | A line is one cell, at least a pixel; a page is as many lines as the view has, at least one. |
| `WheelSteps.WheelConserves` | src/botster/terminalInputEvents.ts:269-325 | Over any run without reset or change of direction the travel equals the emitted steps times their cell sizes plus the remainder, which never points the other way. |
| `WheelSteps.WheelStepAccumulator.ConsumeAxis` | src/botster/terminalInputEvents.ts:310-325 | One axis takes its steps and keeps its remainder; the other axis is untouched. |
| `WheelSteps.WheelStepAccumulator.Consume` | src/botster/terminalInputEvents.ts:287-308 | At most two reports, the vertical one first, of 1 to 3 steps, whose signed sums are the steps of the two axes. |
| `PointerCells.CellIff` | src/botster/terminalInputEvents.ts:227-242 | The column or row is the cell of the grid that contains the offset, and the last one for an offset past the end. |
| `PointerCells.PositionInGrid` | src/botster/terminalInputEvents.ts:227-242 | Any pointer is put in the grid at no negative pixel; left of or above the view it is in the first column or row. |

## Left out

- Statuses, modes, texts of outcomes and refusals, telemetry and live recorders: observation only.
- `readScreen` and `captureSnapshot`: paged requests that change no state of the plane.
- Wire codecs, encryption, WebRTC and the terminal renderer: frames arrive decoded or undecodable, the encoder either gives the number of frames of an operation or throws, and the snapshot reader answers anything.
- The contents of frames: a frame on the wire is named by its operation and its place in it.
- `TerminalGeometryTheorems.HeldStartsSuffice`: only for runs in which every RESIZE that starts holds its slot; `LatestWins` is exact for every run.
- `UiNodeIdentity.RenderedIdsDistinct`: form fields whose schema names a table or a form field are excluded; `RenderedDistinctIff` is exact for every passing page.
- `BindListIdentity.BindListIdsDistinct`: templates that hold a table with an empty state are excluded; `BindListDistinctIff` is exact for them too.
- `BindListIdentity.BindListDistinctIff`: nested bind lists are excluded, whose rows are bound anew.
- `BindListRepeats.RepeatsCollide`: templates with slots, or with parts not shown in a row, are excluded; `BindListDistinctIff` is exact for them.
- `EntityStore.RedeliveryChangesNothing`: not for every stream of sequenced frames; `RedeliveryHarmlessIff` is the exact condition, `EqualSequencesReapply` and `SnapshotsReopen` show streams outside it.
- The authored identity check is given as functions on the tree, not as the source's walk over two nested closures; its locations and messages are not modelled.
- Empty states bound to store data, whose resolution need not terminate.
- The class keeps attachment and route bookkeeping in two record fields that it replaces, rather than one field each; aliasing between hydration objects is by number.
- The order in which demand messages are sent (the source sorts them), package-event subscriptions and disconnecting.
- Active pulls and their replay in the entity store, and copies made by its getters.
- React display state of the plugin log view: only the refs it is computed from.
- The order of integer-like keys in a JavaScript object, and UTF-8 below percent-encoding.
- Source target, preset and id locking of the session-type form: copied fields that no property mentions.
- The field `label` of a session type is called `name` here.
- Floating-point rounding of wheel and pointer arithmetic.
