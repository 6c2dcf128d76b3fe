# A Dafny model of the Cursor provider's state machines

The provider bridges two tool loops that disagree about step boundaries,
retries and ownership. This project models the state machines on which that
bridge rests and proves what they promise over whole runs. Where a promise
does not hold as stated, a lemma gives a failing input and another one says
exactly when it holds.

`dafny verify dfyconfig.toml` covers all of it. Each module follows one source
file or one component of it:

| file | models | main results |
|---|---|---|
| `StepOrder.dfy` | the scheduler of a step that changes files (`src/step-order.ts`) | order and exclusion in every reachable state, conservation of held execs, no deadlock |
| `Sessions.dfy`, `SessionManager.dfy` | held Runs, pending execs, tombstones (`src/session.ts`) | the exec index is exact, closed sessions are gone |
| `Deliveries.dfy` | `deliverClaim` and the per-stream write chain, as steps that interleave at every await | one writer, frames in order and once, delivered at most once, exactly when a lost entry still writes |
| `Activity.dfy` | host activity and exec leases (`src/activity.ts`, `refreshHardDeadline`) | a lease never shrinks and never passes its ceiling |
| `StepUsage.dfy`, `BillingLedger.dfy` | step usage and the billing ledger (`src/billing.ts`) | exact partitions that meet a target, the largest output within it, conservation of the outstanding cost |
| `ToolSteps.dfy` | what a tool step is billed, over the published prices and their context tiers (`src/language-model.ts`, `src/pricing-data.ts`) | exactly when a step costs what one call would |
| `Publication.dfy` | publishing a review with crashes and lost replies (`scripts/review-publish.py`) | at most one review; when a thread can be asked twice |
| `Steers.dfy` | early steers and their matcher (`src/host-steer.ts`) | a promoted steer is kept until answered, round trip over a restart, greedy matching is complete |
| `ShellOutcome.dfy`, `ShellGate.dfy` | shell sentinels and the create gate (`src/shell-timeout.ts`) | round trip for every output, lanes are fair queues |
| `Readers.dfy` | chunked readers (`src/runtime-files.ts`) | agreement with the whole-file definition for every split of the reads |
| `ReplaySafety.dfy` | evidence that history represents a Run (`src/replay-safety.ts`) | when every started call is represented |
| `Catalog.dfy` | the host catalog (`src/model-config.ts`) | no id twice, no variant lost, one key per variant |
| `Decimal.dfy` | whole numbers as text | different numbers have different digits |

Beside these, each `…Effects.dfy` (`StepOrderEffects`, `SessionEffects`,
`DeliveryEffects`, `ActivityEffects`, `BillingEffects`, `PublicationEffects`,
`SteerEffects`, `ReplayEffects`, `CatalogEffects`) says of its module's
operations what they do to every field and when, in the system's own terms and
without the functions that define them, with the laws over whole runs that follow.

Code that updates objects step by step is a class whose methods are proved
equal to a function on values (`Model() == F(old(Model()))`); what the source
promises is then proved of those functions and of runs of them.

Where the code and its own words disagree, the model follows the code:

- `src/model-config.ts:103-105` says a variant key never equals the model
  name. `Catalog.ComposerFast` is a case where it does, and
  `Catalog.KeyIsModelName` says when.
- `src/session.ts:848-849` says a Run that closes or replaces an exec during a
  drain gets no further frame. That holds during a drain, and for a session that
  was closed (`Deliveries.GoneStops`). It fails exactly for a frame that was
  queued behind another write when its exec was replaced or withdrawn and whose
  session is still open (`Deliveries.GoneWritesIff`);
  `Deliveries.Waiting7Reached` and `Deliveries.QueuedFrameOutlivesEntry` are a
  run in which it goes out.
- `src/replay-safety.ts:91` asks every display call to be represented by an
  exec or a completed catalog lookup. `ReplaySafety.OrdinaryCallPassesAsCatalog`
  is an ordinary call that passes as a lookup; `ReplaySafety.RebaseCoversCalls`
  gives the condition.
- `src/language-model.ts:5716-5718` bills a tool step what it would cost with a
  single output token. The call is priced by the tier of its own prompt, the step
  by the tier that is left once its output is taken out
  (`src/language-model.ts:5719-5748`). Within one tier the promise holds for every
  published model. Where the output takes the prompt to 200 000 tokens or fewer
  it holds if and only if the lower tier can carry the call's cost
  (`ToolSteps.EstimateKeepsOneCallCost`); `ToolSteps.CrossingTierBillsLess` is a
  step for which it cannot.
- A review's threads are asked once each (`scripts/review-publish.py:1003-1050`)
  unless the checkpoint is lost while a request is open:
  `Publication.DamageForgetsThreads` shows that this loss always allows a second
  request, and no other does.

What the model assumes of the outside world:

- StepOrder: a call has at most one outstanding exec, none arrives after the
  call is terminal, a call's file-change flag is known when it is first seen,
  a decision to run or hold is carried out before the next event, and a call is
  not completed between its release and its dispatch.
- Deliveries: session ids are distinct; a write may be refused, taken, buffered,
  drained or fail to drain. Closing a session destroys its stream
  (`src/session.ts:1040`), which then refuses writes and fails awaited drains. A
  live session's stream is swapped only once its write chain is empty, as
  `src/session.ts:947-952` asks; its wire and chain run on with the new stream.
- Publication: the lock is exclusive, the checkpoint is replaced atomically, and
  a proven rejection created nothing. Everything else read from GitHub is
  arbitrary.
- Steers and ReplaySafety: injection ids are fresh.
- Readers: the file does not change during one read, and a read before its end
  returns at least one byte.

## Model

| member | source | states |
|---|---|---|
| StepOrder.RunKeepsInv | src/step-order.ts:94-269 | In every state of every allowed run: held execs are sorted by call index, one per held call; no call runs while an earlier file change is unfinished; every exec ever held is still held or left exactly once by release, cancel or drop |
| StepOrder.ReachableStates | src/step-order.ts:72-269 | The same for every run from the empty order |
| StepOrder.EntryFollowsChanges | src/step-order.ts:144-195 | Whatever event makes a call enter running, every file change with a lower index is done by then |
| StepOrder.RefusalStays | src/step-order.ts:204-208 | A refused file change stays refused, at its index, until the step is cleared |
| StepOrder.NothingRunsBehindRefusal | src/step-order.ts:155-208 | After a refusal no later call of the step ever enters running, over any run that does not clear the step |
| StepOrder.NoDeadlock | src/step-order.ts:242-269 | With execs held, nothing running and no file change merely announced, the first held exec is cancelled or released |
| StepOrder.CancelPass | src/step-order.ts:242-253 | A cancel pass keeps the invariant, takes exactly what it reports, and leaves nothing cancellable held |
| StepOrder.CancelOnlyFinishes | src/step-order.ts:242-253 | A cancel pass finishes the calls it takes and changes no other call |
| StepOrder.ReleasePass | src/step-order.ts:259-269 | One release pass is a fixpoint: nothing still held could be released now, and held execs are conserved |
| StepOrder.ReleaseEntersInOrder | src/step-order.ts:259-269 | Each call a release starts has every earlier file change done |
| StepOrder.BatchShape | src/step-order.ts:259-269 | A released batch is one file change alone, or contains none |
| StepOrder.ResetDiscardsNothing | src/step-order.ts:94-120 | A new generation is only started when nothing is held or released and undispatched, and then all held execs have left |
| StepOrderEffects.ResultEffect | src/step-order.ts:215-228 | A delivered result moves exactly its exec's call: rejected, a file change is refused and any other call done; a private read that succeeded leaves its call, any other success finishes it |
| StepOrderEffects.HeldResultEffect | src/step-order.ts:221-239 | A result for a held exec, or its withdrawal, takes exactly that exec out and finishes its call |
| StepOrderEffects.StrayResult | src/step-order.ts:221-223 | A result nobody waits for changes nothing |
| StepOrderEffects.RejectionStopsLater | src/step-order.ts:154-228 | After the host rejects a dispatched file change no later call ever enters running, over any run that does not clear the step |
| StepOrderEffects.RejectionCancelsLater | src/step-order.ts:204-253 | And whatever is held behind it at any such time is in the next cancel pass |
| StepOrderEffects.ArrivalDecision | src/step-order.ts:144-171 | An arriving exec is cancelled if and only if an earlier file change was refused, and run if and only if not so and nothing earlier has to come first |
| StepOrderEffects.ArrivalEffect | src/step-order.ts:122-202 | It runs and is remembered, is held, or its call is done; no other call moves |
| StepOrderEffects.ChangeEntersAlone | src/step-order.ts:144-153 | Whatever lets a file change enter running, no earlier call is held or running then |
| StepOrderEffects.CompletionEffect | src/step-order.ts:198-202 | A completed call is done unless it is held or was refused |
| StepOrderEffects.RedispatchEffect | src/step-order.ts:186-202 | A released exec is remembered as dispatched, or given up and its call done |
| StepOrderEffects.AnnouncementEffect | src/step-order.ts:87-142 | A call announced after a generation whose listed calls are all over starts a new one, otherwise it is added or keeps its place |
| StepOrderEffects.ListingEffect | src/step-order.ts:109-113 | A listed count is remembered, for a new generation if the last one is over |
| StepOrderEffects.StepStartEffect | src/step-order.ts:116-120 | A step start clears exactly when nothing is held and every call is over |
| StepOrderEffects.CancelExact | src/step-order.ts:242-253 | A cancel pass takes exactly the held execs written after a refused file change, and their calls are done |
| StepOrderEffects.CancelInOrder | src/step-order.ts:242-253 | It reports them in model order |
| StepOrderEffects.ReleaseInOrder | src/step-order.ts:259-269 | A release pass reports the execs it takes in model order |
| StepOrderEffects.StillHeldHasReason | src/step-order.ts:259-269 | After a release pass every exec still held has a call to wait for or a refusal before it |
| StepOrder.Scheduler.OrderExec | src/step-order.ts:163-171 | The class method changes the order as the model does and decides run, hold or cancel |
| StepOrder.Scheduler.HoldBack | src/step-order.ts:177-183 | In-place insertion by call index |
| StepOrder.Scheduler.Dispatch | src/step-order.ts:186-195 | The dispatched call runs and its exec is remembered |
| StepOrder.Scheduler.NoteExecResult | src/step-order.ts:215-228 | A result finishes or refuses its call, or drops the held exec, and says whether anything changed |
| StepOrder.Scheduler.DropHeldExec | src/step-order.ts:231-239 | The first held exec with that id leaves the list and is handed back, and its call finishes; nothing when none is held |
| StepOrder.Scheduler.TakeCancelledExecs | src/step-order.ts:242-253 | The splicing loop equals the recursive cancel pass, list and result |
| StepOrder.Scheduler.TakeReleasableExecs | src/step-order.ts:259-269 | The splicing loop equals the recursive release pass, list and result |
| StepOrder.Scheduler.AnnounceCall | src/step-order.ts:139-142 | Announcing registers the call once, at the next index |
| StepOrder.Scheduler.NoteOrderedCallCount | src/step-order.ts:109-113 | A listed count clears a finished step and is remembered |
| StepOrder.Scheduler.StartOrderedStep | src/step-order.ts:116-120 | A step start clears only when nothing is held and every call is terminal |
| Sessions.ClosedIsGone | src/session.ts:994-1041 | A closed session is in no table, owes nothing and has no index entry |
| Sessions.CloseEffect | src/session.ts:994-1041 | Closing ends exactly this session; every other session and entry is untouched |
| Sessions.CloseKeepsInv | src/session.ts:994-1041 | Closing keeps the table invariant (index exact, closed sessions gone, tombstones within their limit) |
| Sessions.RegisterKeepsInv | src/session.ts:510-573 | Registering, with supersede and cap, keeps the table invariant |
| Sessions.SupersedeKeepsInv | src/session.ts:528-569 | Superseding an idle prior Run keeps the invariant, whichever of its branches applies |
| Sessions.CapEffect | src/session.ts:678-705 | The cap keeps the invariant, closes only sessions it may close, the oldest of them and no more than it must, leaves every other untouched, and stops within the cap or with nothing closable |
| Sessions.AddPendingEffect | src/session.ts:718-745 | A registered exec is owed by a fresh entry and no other, indexed, rid of its old mark and deliverable; no other entry changes; the invariant holds |
| Sessions.ClassifyKeepsInv | src/session.ts:752-783 | Classifying, with the closes it makes, keeps the invariant |
| Sessions.CompleteEffect | src/session.ts:862-869 | Completing a delivery removes exactly that entry and its index key, marks the key delivered until its expiry, and keeps the invariant |
| Sessions.ResolveEffect | src/session.ts:882-891 | Resolving an owed exec removes exactly that entry and its index key and marks it delivered; otherwise it changes nothing; the invariant holds |
| Sessions.SettleKeepsInv | src/session.ts:598-665 | Settling bridged entries and abandoning entries keep the invariant |
| Sessions.SettleEffect | src/session.ts:598-665 | Settling takes exactly the bridged, aborted or answered entries no delivery claimed, each counted once; abandoning takes and counts all |
| Sessions.PutTombstoneKeeps | src/session.ts:1185-1199 | One mark per key, never more marks than the limit |
| Sessions.PutTombstoneFinds | src/session.ts:1185-1199 | The newest mark of a key is the one put last |
| Sessions.DisposeKeepsInv | src/session.ts:1064-1068 | After disposal nothing is open, owed or indexed |
| SessionEffects.SupersedeEffect | src/session.ts:528-569 | The open, idle Run of the same host session is closed if and only if nothing it owes needs a write, and otherwise stays open owing exactly the rest; a pumping, closed or other session is untouched, and the host index names the new one |
| SessionEffects.RegisterEffect | src/session.ts:510-573 | The same for a whole registration; any other session is untouched, or closed as idle when there are more open ones than allowed |
| SessionEffects.RegisterRefused | src/session.ts:510-512 | Registering is refused exactly for a missing or closed session and idle for a registered one |
| SessionEffects.EvictableIsIdle | src/session.ts:680-688 | The cap may close exactly a session other than the new one that is not pumping and owes only withdrawn results |
| SessionEffects.CloseTables | src/session.ts:994-1041 | A close takes exactly this session out of the open ones and the host index |
| SessionEffects.CloseMarks | src/session.ts:1014-1020 | It marks every result still owed with the reason, unless the reason is silent |
| SessionEffects.SettleLeaves | src/session.ts:648-665 | Settling leaves the session open and owing exactly what needs a write |
| SessionEffects.SettleMarks | src/session.ts:651-659 | Every entry settled is marked as delivered |
| SessionEffects.AbandonLeaves | src/session.ts:598-611 | Abandoning leaves the session open and owing nothing, each result marked as interrupted by the host |
| SessionEffects.ClosedStays | src/session.ts:598-1000 | A closed session has nothing to settle, abandon or close |
| SessionEffects.PutKeepsOthers | src/session.ts:1185-1199 | While the limit is not met, marks of other keys stay |
| SessionEffects.ClassifyEnds | src/session.ts:752-783 | An exec whose stream ended unanswered or whose lease ran out ends exactly its session, for that reason, and answers with it |
| SessionEffects.ClassifyAnswers | src/session.ts:770-777 | Otherwise an owed exec is deliverable while it waits and a duplicate while it is delivered, and nothing changes |
| SessionEffects.ClassifyUnowed | src/session.ts:779-783 | An exec nobody owes answers by its mark, which goes when it has expired, and is missing without one |
| SessionEffects.ClaimEffect | src/session.ts:785-794 | A deliverable entry is claimed and nothing else changes |
| SessionEffects.ForgetEffect | src/session.ts:619-630 | A held exec is forgotten without a mark exactly while the very entry that held it waits and was not withdrawn |
| SessionEffects.AbortEffect | src/session.ts:632-638 | Cursor can withdraw exactly an exec that waits for the host |
| SessionEffects.BeginPumpEffect | src/session.ts:893-901 | A pump starts only where no other pump reads |
| SessionEffects.BeginPumpRefused | src/session.ts:893-901 | None starts on a missing or closed session |
| SessionEffects.EndPumpEffect | src/session.ts:907-922 | A pump's end carries out the end the stream had meanwhile, in each of the three ways |
| SessionEffects.StreamEndedEffect | src/session.ts:1081-1100 | A stream's end closes its session at once unless a pump, an interrupt or answered work alone make it wait |
| SessionEffects.DisposeCloses | src/session.ts:1064-1068 | Disposal closes every session that was open |
| Deliveries.NextKeepsInv | src/session.ts:796-870 | Every step of every interleaving keeps: one task per entry, frames counted exactly, one place in a write chain, and the table invariant |
| Deliveries.ReachableTables | src/session.ts:510-1041 | Over every interleaving the index holds an exec exactly while it is pending on its open session, closed sessions are in no table, and tombstones stay within the limit |
| Deliveries.DeliveredOnce | src/session.ts:816-869 | An entry becomes delivered at most once, by the step that completes its own delivery, while owed and claimed |
| Deliveries.StepEffect | src/session.ts:796-870 | Apart from the entry a step delivers, no step brings an entry back, unclaims one or reopens a session |
| Deliveries.NeverReopens | src/session.ts:994-1041 | A closed session never reopens |
| Deliveries.OneWriter | src/session.ts:816-829 | Two deliveries never serve the same entry |
| Deliveries.FramesInOrder | src/session.ts:836-852 | Of two frames on the wire for one entry, the later one has the higher number |
| Deliveries.WirePrefix | src/stream-write.ts:43-62 | The frames on the wire for a delivery are its first frames, none missing |
| Deliveries.DeliveredMeansWritten | src/session.ts:836-869 | A delivered entry's frames are all on the wire |
| Deliveries.GoneStops | src/session.ts:806-855 | However the run goes on, a delivery whose entry is gone writes at most the frame it had queued, none when it waited for drain or its session was closed, and its entry never becomes delivered |
| Deliveries.GoneWritesIff | src/session.ts:846-855 | From every reachable world some continuation writes a further frame of a delivery whose entry is gone if and only if its next frame waits in the chain and its session is open |
| Deliveries.QueuedGoesOut | src/stream-write.ts:43-62 | No queued frame is lost: while its session is open some continuation writes it next |
| Deliveries.SwapStrandsNothing | src/language-model.ts:2711-2715 | Once the write chain has settled, no delivery of the session waits for a write on the stream that is swapped out |
| Deliveries.Waiting7Reached | src/session.ts:796-870 | A world with a frame queued behind another write is reached from an empty manager in five events |
| Deliveries.QueuedFrameOutlivesEntry | src/stream-write.ts:43-62 | The failing run: in that reached world the entry is replaced, the other write settles, and the old entry's frame goes out |
| Deliveries.CompleteMarks | src/session.ts:862-866 | A completed delivery marks its key as delivered |
| Deliveries.MarkedIsDuplicate | src/session.ts:752-783 | A second result is a duplicate exactly until the mark expires, and missing afterwards |
| DeliveryEffects.RunStrandsNone | src/session.ts:796-870 | Over every interleaving each entry a delivery was started for is delivered, gone, or still being written: none stays claimed for good |
| DeliveryEffects.ReachableStrandsNone | src/session.ts:796-870 | So in every world reached from an empty manager |
| DeliveryEffects.FinishedOwesNothing | src/session.ts:850-869 | A delivery that has ended owes nothing any more |
| DeliveryEffects.DeliveryRefused | src/session.ts:816-829 | A delivery that cannot start writes nothing and changes no task |
| DeliveryEffects.DeliveryStarts | src/session.ts:823-838 | One that starts ends its session on an expired lease or a result without frames, delivers at once what needs none, or hands its first frame to the end of the chain |
| DeliveryEffects.WriteAttempt | src/stream-write.ts:43-90 | A refused write leaves the wire alone, a taken or buffered one puts the next frame on it, and only a buffered one still holds the chain |
| DeliveryEffects.DrainAttempt | src/stream-write.ts:76-90 | A buffered frame counts as written whether or not it drains, and only draining on an open session is a success |
| DeliveryEffects.StepsAre | src/session.ts:796-870 | The events of a run are these steps |
| DeliveryEffects.ContinueUnowed | src/session.ts:848-851 | A delivery whose entry has gone ends |
| DeliveryEffects.ContinueFailed | src/session.ts:853-860 | A failed write closes the session of an owed entry: as a failed write when the stream took no frame, else as an ambiguous partial one |
| DeliveryEffects.FailedDeliveryEnds | src/session.ts:853-860 | So nothing of that session is owed any more and the key is marked with that reason |
| DeliveryEffects.ContinueRequeues | src/session.ts:836-851 | A settled write with frames left puts the task at the end of its chain |
| DeliveryEffects.ContinueDelivers | src/session.ts:862-869 | After the last frame the entry is completed |
| SessionManagers.SessionManager.CloseSession | src/session.ts:994-1041 | The class method closes as the model does |
| SessionManagers.SessionManager.RegisterSession | src/session.ts:510-573 | Registration, supersede and cap as the model does |
| SessionManagers.SessionManager.EnforceOpenSessionCap | src/session.ts:678-705 | The cap loop equals the recursive model |
| SessionManagers.SessionManager.FindOldest | src/session.ts:680-688 | The scan for the oldest session the cap may close |
| SessionManagers.SessionManager.RegisterPendingExec | src/session.ts:718-745 | A fresh entry under an exec id |
| SessionManagers.SessionManager.ClassifyExec | src/session.ts:752-783 | Answer and closes as in the model |
| SessionManagers.SessionManager.ClaimExec | src/session.ts:785-794 | Only a deliverable entry is claimed |
| SessionManagers.SessionManager.CompleteDelivery | src/session.ts:862-869 | The last step of a delivery |
| SessionManagers.SessionManager.SettleBridgedPending | src/session.ts:648-665 | The loop settles as in the model and returns the number of entries settled |
| SessionManagers.SessionManager.Abandon | src/session.ts:598-611 | All entries go as in the model, and their number is returned |
| SessionManagers.SessionManager.ResolveExec | src/session.ts:882-891 | Resolve as in the model |
| SessionManagers.SessionManager.ForgetHeldExec | src/session.ts:619-630 | Only the very entry held is forgotten |
| SessionManagers.SessionManager.ReplaceStream | src/session.ts:953-959 | An open session drops its deferred end, a closed one refuses |
| SessionManagers.SessionManager.DisposeAll | src/session.ts:1064-1068 | The loop closes every open session as in the model and clears the index |
| SessionManagers.SessionManager.AddTombstone | src/session.ts:1185-1199 | One mark a key, oldest dropped beyond the limit |
| Activity.LeaseBounds | src/session.ts:1121-1145 | Over any run a lease never shrinks and never passes the greatest of registration + cap, the session's last activity + cap, and the start of a tool that held it + 4 h |
| Activity.LeaseFromRegistration | src/session.ts:1121-1145 | The same from a registration over any tracker: the lease lasts its cap at least |
| Activity.RefreshGrants | src/session.ts:1121-1145 | A refresh grants what activity and a running tool are due, and nothing else |
| Activity.StartsDoNotMoveCeiling | src/activity.ts:119-128 | Repeated start events leave a running tool's start where the first one put it, until it ends or is forgotten |
| Activity.RenewedIsBelongsTo | src/activity.ts:77-94 | Activity renews exactly the sessions a tool there counts for, also over cyclic parent links |
| Activity.BelongsToIsAbove | src/activity.ts:227-234 | The bounded walk finds exactly the ancestors fewer than 64 links away |
| ActivityEffects.LastActivityEffect | src/activity.ts:96-101 | An open prompt of the session or of a descendant is activity now; without one the last recorded activity counts |
| ActivityEffects.ToolDeadlineIff | src/activity.ts:149-158 | The deadline reported is the latest end of the four hours of a running tool of the session or a descendant, or none |
| ActivityEffects.EndedHoldsNothing | src/activity.ts:142-147 | A tool that has ended holds no lease until it is started again |
| ActivityEffects.StartEffect | src/activity.ts:119-128 | A tool keeps its first start; the start is activity of its session and those above |
| ActivityEffects.EndEffect | src/activity.ts:142-147 | A tool that ends is gone; its end is activity |
| ActivityEffects.IdleEffect | src/activity.ts:130-140 | An idle session ends exactly its own tools, which is activity if there were any |
| ActivityEffects.PromptEffect | src/activity.ts:103-117 | A prompt is open from its opening to its answer, both activity |
| ActivityEffects.ActedEffect | src/activity.ts:77-94 | Activity counts for its session and those above, never back in time |
| ActivityEffects.OnlyRefreshMoves | src/session.ts:1121-1145 | No other event touches a lease |
| ActivityEffects.LinkEffect | src/activity.ts:66-75 | A link is set or removed, and earlier activity then counts for the sessions now above |
| ActivityEffects.PromptRenews | src/session.ts:1121-1145 | A refresh with an open prompt of the session or of a descendant renews the lease from now |
| ActivityEffects.ToolRenews | src/session.ts:1121-1145 | So does a running tool, as far as its own four hours reach |
| ActivityEffects.ActivityRenews | src/session.ts:1121-1145 | Activity after the registration renews the lease from its own time |
| ActivityEffects.NothingRenews | src/session.ts:1121-1145 | Without any of these a refresh leaves the lease alone |
| Activity.SessionActivityTracker.RecordActivity | src/activity.ts:77-94 | The walk with its visited set equals the renewal of that set of sessions |
| Activity.SessionActivityTracker.RunningToolDeadline | src/activity.ts:149-158 | The scan returns the latest ceiling of the tools that hold the lease, or none |
| Activity.SessionActivityTracker.StartTool | src/activity.ts:119-128 | A start is recorded once and counts as activity |
| Activity.SessionActivityTracker.EndTool | src/activity.ts:142-147 | The tool leaves and the end counts as activity |
| StepUsage.ShapeIsPartition | src/billing.ts:144-192 | Categories sum with the output to the truncated occupancy, output lies between 1 and it, reasoning within output |
| StepUsage.ShapeEffect | src/billing.ts:144-192 | Output, reasoning, cost and, without prices or a target, every category are exactly these |
| StepUsage.ShapeMeetsTarget | src/billing.ts:170-189 | The cost is the least or most the step can carry when the target lies outside that range, else within half a price gap |
| StepUsage.TargetSplitMeetsBudget | src/billing.ts:170-189 | The miss is at most half the gap of the very two categories that bracket the budget |
| StepUsage.TargetSplitExact | src/billing.ts:123-137 | The split is exact, and cache write is used only when input and cache read cannot reach the budget |
| StepUsage.MixIsClosest | src/billing.ts:119-137 | No other whole-token mix of the two categories comes closer to the budget |
| StepUsage.CarriableRange | src/billing.ts:72-78 | No partition with that output costs less than the least or more than the most |
| StepUsage.EndsOfByPrice | src/billing.ts:173-184 | The stable sort puts a cheapest category first and a dearest last |
| StepUsage.MaxOutputIsGreatest | src/billing.ts:194-205 | Where output costs more than the cheapest input and one output token fits, the result is the greatest output whose cheapest split fits the target |
| StepUsage.AllOutputIsCheapest | src/billing.ts:203 | Otherwise all of the step as output costs least |
| StepUsage.MaxOutputOtherwise | src/billing.ts:199-205 | One token where not even one fits, all where output is no dearer than any input category |
| StepUsage.OutputWithinTargetKeepsIt | src/billing.ts:193-205 | A step keeps its cost at the target up to half a price gap with exactly the outputs admitted |
| ToolSteps.EstimateKeepsOneCallCost | src/language-model.ts:5715-5751 | For every published cost entry, occupancy, prefix and estimate, a tool step is billed at most what the call with one output token costs, up to half a price gap; at least that too if and only if it stays in the call's context tier or the lower tier it falls to can carry that cost; otherwise it is billed the most that tier can |
| ToolSteps.BilledRange | src/language-model.ts:5715-5751 | For any cost entry: the least or most the step can cost in its own tier when the call's cost lies outside that range, within half a price gap of it inside |
| ToolSteps.TargetIsCallCost | src/language-model.ts:5723-5731 | The target is one output token, the prefix as far as it fits read from cache, and the rest new input, at the call's own tier |
| ToolSteps.CallCostIsCarriable | src/billing.ts:193-205 | The call's cost is never below the least the step can cost, whatever was estimated, and in the same tier never above the most |
| ToolSteps.PublishedIsRegular | src/pricing-data.ts:11-296 | In every published entry output costs no less than input and cache read, and the tier over 200 000 tokens no less than the base |
| ToolSteps.CrossingTierBillsLess | src/billing.ts:58-69 | The failing case: claude-sonnet-4 at 200 500 tokens with 600 of output is billed 0.758625 USD where the call costs 1.2030165 |
| BillingLedger.NextKeepsBooks | src/billing.ts:250-326 | Every booking keeps: entry estimates cover their Runs', pending reasoning within pending output, measured output accounted for, at most 1024 entries |
| BillingLedger.ClampNeverBites | src/billing.ts:281-284 | A Run's estimates are always held in full by the entry they were billed to |
| BillingLedger.OutstandingChanges | src/billing.ts:274-332 | An estimate leaves the outstanding cost alone; a TurnEnded changes it by its cost minus that Run's own estimates; the turn's bill by the amount billed |
| BillingLedger.OutstandingConserved | src/billing.ts:274-332 | The same, telescoped over any run in which the session is not evicted |
| BillingLedger.MeasuredOutputIsNeverLost | src/billing.ts:274-342 | From empty books, reported + pending output covers measured output and live estimates of a session never evicted; pending reasoning never exceeds pending output |
| BillingLedger.EndingNeverConsumes | src/billing.ts:285-290 | A Run that ends takes nothing from what another Run left pending, whatever it estimated |
| BillingLedger.EvictKeeps | src/billing.ts:263-267 | Eviction drops the least recently used entry and changes nothing else |
| BillingEffects.BookingEffect | src/billing.ts:273-327 | Each booking changes every total of its own session in exactly this way and no other session's: a TurnEnded adds to the pending output only what goes beyond the Run's own estimate |
| BillingEffects.RunEffect | src/billing.ts:293-317 | Only the Run named changes: it collects what its steps report and loses it when its counters arrive or its stream is replaced |
| BillingEffects.SurplusChanges | src/billing.ts:273-327 | Reported plus pending less measured less live estimates changes per event by exactly the Run's overestimate, the turn's over-report or the replaced estimates, for output and for reasoning |
| BillingEffects.OutputConserved | src/billing.ts:273-342 | The same as an equality over any run in which the session is not evicted |
| BillingEffects.TouchMoves | src/billing.ts:250-271 | A booked session becomes the most recently used, the others keep their order, and only the least recently used goes |
| BillingLedger.Billing.EntryOf | src/billing.ts:250-271 | The entry is made current or made anew after the eviction loop |
| BillingLedger.Billing.RecordRealCost | src/billing.ts:274-296 | Entry and Run after a TurnEnded, as in the model |
| BillingLedger.Billing.RecordBilledStep | src/billing.ts:299-326 | Entry and Run after a delivered step, as in the model |
| BillingLedger.RunEstimates.Replace | src/session.ts:961-965 | A replaced stream starts with no estimates and no entry |
| Publication.AtMostOneReview | scripts/review-publish.py:1563-1649 | Over any post runs, crashes and lost replies at most one review is created, however late a request is carried out, also if the checkpoint becomes unreadable between runs |
| Publication.SendsFromDurablePosting | scripts/review-publish.py:1596-1622 | "posting" is on disk before each send; a send starts only where no earlier request can have created a review |
| Publication.LeavingPosting | scripts/review-publish.py:1599-1636 | Only a stop before sending or a proven rejection leaves "posting" without a receipt; "posted" stays |
| Publication.AskedOnce | scripts/review-publish.py:1003-1050 | A thread is not asked again after a request that was not proven rejected, in every run that never loses the checkpoint while a request for that thread is open |
| Publication.DamageForgetsThreads | scripts/review-publish.py:1113 | From every such run between two posts, losing the checkpoint lets some continuation ask a thread twice if and only if a request for it was open |
| Publication.RequestCanStayOpen | scripts/review-publish.py:1003-1050 | That happens: a run in which a request for the thread stays open |
| Publication.RecordingKeepsResolutions | scripts/review-publish.py:1070-1115 | Recording a visible review keeps the threads' states |
| PublicationEffects.PostEffect | scripts/review-publish.py:1563-1649 | One request is sent if and only if no review is visible, none may be on its way and nothing stops the run before; it is published if and only if the run has a review, in one of four ways, that can be recorded |
| PublicationEffects.PostLeaves | scripts/review-publish.py:1563-1649 | The checkpoint file left in each case |
| PublicationEffects.ThreadEffect | scripts/review-publish.py:1012-1050 | Exactly when a thread is asked for, refused and resolved, and the mark it is left with |
| PublicationEffects.ThreadsEffect | scripts/review-publish.py:1012-1050 | The run succeeds exactly when every turn does, and ends with the first that fails as if no thread came after |
| PublicationEffects.ResolvedStays | scripts/review-publish.py:1019-1024 | A resolved thread is never asked for again and keeps its mark |
| PublicationEffects.OthersUntouched | scripts/review-publish.py:1012-1050 | Threads not named are neither asked for nor marked |
| Publication.PostLockedIsRun | scripts/review-publish.py:1563-1649 | Every call of the straight-line code is a run of the step machine with the same file, sends and outcome |
| Publication.ResolveOneIsRun | scripts/review-publish.py:1012-1050 | Every thread's turn is a run of the step machine |
| Publication.Checkpoint.PostReview | scripts/review-publish.py:1563-1649 | The branching code leaves the file and counts the straight-line definition gives, for all answers |
| Publication.Checkpoint.ResolveThreads | scripts/review-publish.py:1012-1050 | The loop over threads, stopping where the source exits |
| Publication.ReplacementIsNoticed | scripts/review-publish.py:1382-1392 | While the approval file stays readable, no later record has the operation key a run pinned, even if it reads the same |
| Publication.LostApprovalRepeats | scripts/review-publish.py:1445-1463 | After a loss the same approval written n times passes for the pinned one if and only if the pinned record was the n-th |
| Steers.RunKeepsInv | src/host-steer.ts:78-253 | In every reachable table checkpointed or answered implies delivered, and both caps hold |
| Steers.PromotedSurvives | src/host-steer.ts:99-180 | A promoted unanswered steer survives settle, hand-over to a successor and forget-undelivered, and what becomes of it |
| Steers.PromotedWaitsForAnswer | src/host-steer.ts:130-180 | Over any run a promoted steer is kept until it is answered, unless the host withdraws it, starts a new turn or rebuilds from history |
| Steers.ResentOnlyAfterLoss | src/host-steer.ts:130-180 | Once sent, a steer is sent again only after a hand-over whose checkpoint lacks it |
| Steers.UndeliveredIsExact | src/host-steer.ts:141-149 | What turn_ended sends again is exactly what was promoted into this Run and not taken |
| Steers.SettleDropsOnly | src/host-steer.ts:139-159 | turn_ended drops what it leaves to the host and what other Runs have answered, and nothing else |
| SteerEffects.FilterEffect | src/host-steer.ts:97-222 | Each of these operations leaves other sessions alone and this one with exactly what is left of its records, in their order |
| SteerEffects.LeftIs | src/host-steer.ts:97-222 | What is left of a record after each of them |
| SteerEffects.CheckpointedSurvives | src/host-steer.ts:118-180 | What a checkpoint holds is answered by its Run's turn_ended or handed over delivered, never sent again |
| SteerEffects.CheckpointedWaitsForAnswer | src/host-steer.ts:118-180 | Over any run a checkpointed steer is kept until it is answered, unless the host withdraws it, starts a new turn or rebuilds from history |
| SteerEffects.InjectionEffect | src/host-steer.ts:78-83 | A steer is kept at the end unless its session or the table is full |
| SteerEffects.DeliveryEffect | src/host-steer.ts:110-116 | A delivery marks the first record of the injection and nothing else |
| SteerEffects.RestoreIff | src/host-steer.ts:232-253 | A session is restored exactly when it has no records, there is room, and the saved text is a version 1 list of 1 to 32 good records |
| SteerEffects.ReadRecordIff | src/host-steer.ts:238-250 | Which saved records are good, and what is read of them |
| SteerEffects.CarriesWhatWasWritten | src/host-steer.ts:182-187 | A host message carries a steer exactly when what is left of it without its reminders is the steer's text but for blanks around it |
| SteerEffects.TrimIs | src/host-steer.ts:186 | Trimming takes exactly the blanks at both ends |
| Steers.RoundTrip | src/host-steer.ts:227-253 | Restoring a serialized session into an empty table gives the same records if and only if every text is non-empty and every host turn is a 64-digit hash |
| Steers.RestoreKeeps | src/host-steer.ts:232-253 | Whatever was saved, what is restored satisfies the invariant |
| Steers.MatchIffPossible | src/host-steer.ts:190-205 | The greedy match succeeds if and only if a one-to-one assignment of accepted records exists |
| Steers.GreedyIsSound | src/host-steer.ts:190-205 | A match gives each message its own accepted record, at distinct positions |
| Steers.GreedyIsComplete | src/host-steer.ts:190-205 | The greedy choice finds a match whenever any assignment exists |
| Steers.EarlySteers.RecordEarlySteer | src/host-steer.ts:78-83 | Recorded at the end, refused at either cap |
| Steers.EarlySteers.MarkDelivered | src/host-steer.ts:110-116 | The first record of the injection is marked |
| Steers.EarlySteers.MarkCheckpointed | src/host-steer.ts:118-122 | Every delivered record of the Run is marked in place |
| Steers.EarlySteers.SettleEarlySteers | src/host-steer.ts:130-162 | The filtering loop, with the messages to send again and how many were newly answered and left to the host |
| Steers.EarlySteers.HandOverEarlySteers | src/host-steer.ts:170-180 | The filtering loop of a hand-over or rebase |
| Steers.EarlySteers.Matching | src/host-steer.ts:190-205 | The splicing loop equals the recursive match |
| ShellOutcome.ExitRoundTrip | src/shell-timeout.ts:662-704 | For every output and exit code, parsing output + sentinel gives exactly that output and code |
| ShellOutcome.TimeoutRoundTrip | src/shell-timeout.ts:662-704 | The same for a timeout |
| ShellOutcome.BackgroundRoundTrip | src/shell-timeout.ts:667-694 | The same for a background hand-over with an absolute log path, if and only if the pid is one a process can have |
| ShellOutcome.BackgroundFileRoundTrip | src/shell-timeout.ts:667-694 | A hand-over with its own pid and output file comes back with both, if and only if the pid is one a process can have |
| ShellOutcome.NoSentinelNoOutcome | src/shell-timeout.ts:662-704 | Output without a sentinel is no outcome |
| ShellOutcome.LauncherRoundTrip | src/shell-timeout.ts:280-347 | However the launcher ends and whatever the command printed, parsing its text gives back the command's output and the ending |
| ShellOutcome.LaunchedIsUnambiguous | src/shell-timeout.ts:280-347 | No two outputs or endings make the launcher print the same text |
| ShellOutcome.FinalSentinel | src/shell-timeout.ts:613-631 | The launcher's own sentinel is the last of its kind and later than any of another kind |
| ShellOutcome.SentinelIsLast | src/shell-timeout.ts:613-631 | No sentinel starts later, whatever the command printed |
| ShellOutcome.LastPrivateMarker | src/shell-timeout.ts:613-631 | The regular expression loop finds the last sentinel that stands on its own line |
| ShellOutcome.StripsOneLineFeed | src/shell-timeout.ts:576-578 | Exactly the launcher's one line feed is stripped, also after CR or LF |
| ShellGate.LanesAreQueues | src/shell-timeout.ts:95-130 | After any events a lane holds the calls it held and those armed since, in order, less those disarmed: none lost, none overtaken |
| ShellGate.EveryWaiterGetsItsTurn | src/shell-timeout.ts:115-130 | Once every call ahead of it is disarmed, a waiting call holds its lane |
| ShellGate.ArmedIsKept | src/shell-timeout.ts:95-130 | A call armed and never disarmed is in its lane's queue after the run |
| ShellGate.WokenAreNewHolders | src/shell-timeout.ts:115-130 | A disarm wakes exactly the calls that hold a lane after it and did not before |
| ShellGate.CreateGate.ArmCreate | src/shell-timeout.ts:95-112 | A call holds its lane at once exactly when the lane was free |
| ShellGate.CreateGate.DisarmCreate | src/shell-timeout.ts:115-130 | The loop over the lanes takes the call out of each and wakes exactly the new holders |
| Readers.ScanLines | src/runtime-files.ts:166-191 | For every file and every split of its reads: the first cap bytes of the lines asked for, and the line count of the whole text |
| Readers.ScanChunk | src/runtime-files.ts:176-186 | One chunk advances the scan as the whole-file definition says, wherever the chunk was cut |
| Readers.LinesAreThose | src/runtime-files.ts:160-191 | Of a text put together from lines, the range is exactly those lines |
| Readers.LinesAreCounted | src/runtime-files.ts:160-191 | And it has as many lines as were put together |
| Readers.TerminalHeaderLength | src/runtime-files.ts:205-219 | For every file, size and split of the reads: 0 only without a closing line within the size, else the end of the first closing line or of one at byte 1 or 2; exactly the whole-file answer when there is none at 1 or 2 |
| Readers.NotInOpening | src/runtime-files.ts:205-219 | A record that starts with the opening line has no closing line at byte 1 or 2 |
| Readers.SearchWindow | src/runtime-files.ts:211-216 | Searching the four kept bytes and the new ones misses no closing line |
| Readers.ReadRange | src/runtime-files.ts:193-202 | The range up to the end of the file |
| Readers.Utf8Slice | src/runtime-files.ts:31-35 | Both bounds move inwards past continuation bytes only |
| Readers.SliceIsWholePoints | src/runtime-files.ts:31-35 | Between such bounds a slice of well-formed text is whole code points |
| ReplaySafety.RebaseCoversCalls | src/replay-safety.ts:91-159 | With nothing unsafe and all announced calls claimed, history represents every started call if and only if no unclaimed call was started as a catalog lookup after being announced |
| ReplaySafety.EveryCallEnds | src/replay-safety.ts:91-159 | In any case each started call is claimed, or was started and completed once as a catalog lookup |
| ReplaySafety.OrdinaryCallPassesAsCatalog | src/replay-safety.ts:122-149 | The failing case: an ordinary start, then a catalog start and completion of the same call |
| ReplaySafety.EvidenceIsDistinct | src/replay-safety.ts:41-68 | Exec ids are distinct within a session, and each accepted echo consumed its own delivered injection |
| ReplaySafety.BarrierStays | src/replay-safety.ts:176-187 | The first stateful barrier and an unsafe history stay for the whole Run |
| ReplayEffects.UnsafeIff | src/replay-safety.ts:116-191 | Over any run history becomes unsafe exactly when an unsafe frame comes: an opaque one, an exec without a fresh safe id, a display frame that neither starts nor completes a call, or a message that is no echo or one too many |
| ReplayEffects.BarrierEffect | src/replay-safety.ts:116-191 | What each frame notes as first, stateful and other barrier |
| ReplayEffects.ResumeEffect | src/replay-safety.ts:104-109 | A resumed attempt starts without a barrier of its own, stateful if the Run was |
| ReplayEffects.ReplaySafeIff | src/replay-safety.ts:193-205 | A failure stays replayable exactly when the Run was never stateful and no barrier came since the attempt began, and is put down to echoes exactly when all barriers were echoes |
| ReplayEffects.ExecEffect | src/replay-safety.ts:151-159 | A fresh safe exec is kept with the call it claims, any other is not |
| ReplayEffects.LifecycleEffect | src/replay-safety.ts:122-149 | A start is announced once and remembered as a lookup if it is one; the end of a started lookup completes it |
| ReplayEffects.AppendedEffect | src/replay-safety.ts:56-68 | An echo consumes its injection and is accepted within the cap |
| ReplayEffects.InjectedEffect | src/replay-safety.ts:41-44 | An injection is remembered, the oldest of more than 64 forgotten |
| ReplayEffects.DeliveredEffect | src/replay-safety.ts:46-49 | The first injection with that id is delivered |
| ReplaySafety.AttemptReplaySafety.Judge | src/replay-safety.ts:193-205 | A failure is judged as in the model |
| ReplaySafety.AttemptReplaySafety.RecordLifecycle | src/replay-safety.ts:122-149 | A lifecycle frame changes state and attempt as in the model |
| ReplaySafety.AttemptReplaySafety.RecordHostExec | src/replay-safety.ts:151-159 | A repeated or unsafe exec id makes the history unsafe, any other is added |
| ReplaySafety.AttemptReplaySafety.RecordAppended | src/replay-safety.ts:165-174 | An echo is accepted within the cap; anything else is unsafe |
| ReplaySafety.AttemptReplaySafety.MarkFrame | src/replay-safety.ts:181-191 | One frame's effect on the barriers |
| Catalog.NoIdWrittenTwice | src/model-config.ts:302-368 | For models with distinct ids no catalog id is written twice |
| Catalog.EveryVariantAppears | src/model-config.ts:320-364 | Every variant is offered by some entry |
| CatalogEffects.GroupExact | src/model-config.ts:325-348 | A group offers exactly the variants of its tier and speed, is never empty, and is described by those that belong to the tier or by all if none does |
| CatalogEffects.GroupsOfTier | src/model-config.ts:265-274 | A tier has a group for each speed at which it offers something, the slow one first |
| CatalogEffects.TiersExact | src/model-config.ts:316-320 | The tiers are the base, the one-million-token one, and each context of its own that some variant has, once |
| CatalogEffects.AdvertisedExact | src/model-config.ts:331-333 | What a tier offers, in the model's order |
| CatalogEffects.PrimaryIs | src/model-config.ts:350-355 | The model's own id goes to the first group without a suffix, or to the first of all |
| CatalogEffects.OtherIds | src/model-config.ts:283-300 | Every other id is the model's with its suffix, or with the first free number from 2 on |
| CatalogEffects.SuffixIs | src/model-config.ts:322-324 | The suffix says the tier and the speed |
| CatalogEffects.KeyIs | src/model-config.ts:99-112 | Under which key a variant is listed in each case |
| Catalog.OneKeyPerVariant | src/model-config.ts:66-120 | Every picker has exactly one key for each variant it offers |
| Catalog.KeysAreDistinct | src/model-config.ts:100-118 | Keys of one picker are pairwise different |
| Catalog.PickerHoldsAll | src/model-config.ts:113-118 | No key replaces another: each variant's parameters stand under its key |
| Catalog.FirstFreeIsFree | src/model-config.ts:111-112 | The name found is free and the first free one |
| Catalog.SearchFree | src/model-config.ts:288-299 | The search loop ends, because candidates are pairwise different and the used names finite |
| Catalog.UniqueCatalogId | src/model-config.ts:283-300 | The id is free and becomes used |
| Catalog.KeyIsModelName | src/model-config.ts:103-112 | Exactly when the i-th key of a picker equals the model's own name, which the source means to rule out, in terms of the keys of the variants before it |
| Catalog.ComposerFast | src/model-config.ts:103-112 | A model and two variants for which it happens |
| Catalog.ModelInfoVariants | src/model-config.ts:66-120 | The loop builds those keys and that table |
| Catalog.WriteGroups | src/model-config.ts:350-365 | The loop over one model's groups writes the assigned entries |
| Catalog.WriteCatalog | src/model-config.ts:302-368 | The loops' table holds exactly the entries of the catalog, each under its own id |

## Left out

- Deliveries: `deliverClaim`'s loop is modelled as one step per await rather than as one method, so that every other call can run in between; object identity is a position in a list.
- Deliveries: the outcome value `deliverClaim` returns to its caller; the state it stands for is modelled.
- Deliveries: a write that waits inside the stream for its compression is one accepted write.
- Sessions: heartbeats, semantic deadlines, timers, frame buffers and the tool-call bindings; whether a lease has expired and whether a stream has closed are inputs (the lease itself is in `Activity.dfy`).
- Sessions: two independent ways in which a session stops answering (a closed stream, an old deadline field) are one input.
- StepOrder: a swapped stream drops the whole order with whatever it held (`src/session.ts:973`); runs are those of one stream.
- StepOrder: a listed call count that is not finite; deciding which tools change files.
- StepOrder.Scheduler.TakeCancelledExecs: filters and removes in one pass, where the source filters first and then removes each.
- Activity: which entries pruning picks; any entry may be forgotten at any time, which covers every choice. The parsing of host events.
- StepUsage.ShapeMeetsTarget: USD amounts are real numbers, so binary rounding of prices is not captured; a non-finite occupancy or prefix is not an input.
- ToolSteps: looking up the cost entry of a model id; a model without one, whose steps are billed nothing.
- BillingLedger: the cost of a TurnEnded is an input; the tier and partition rules behind it are not modelled.
- BillingLedger.MeasuredOutputIsNeverLost: says nothing of a session whose entry was evicted.
- Publication: reading threads page by page, the inventory of earlier threads, artifact retention and payload checks; each is an arbitrary answer or a stop.
- Publication.AskedOnce: needs a checkpoint that is not lost while a request for the thread is open; `Publication.DamageForgetsThreads` shows that a loss then allows a second request.
- Steers: `needsHostHistory` and forgetting matched records; announcing and queueing host messages; the records' identity as objects (a match returns the records and its positions are distinct).
- Steers.RoundTrip: JSON text is a parsed value; the parser and printer themselves are not modelled.
- ShellOutcome.ExitRoundTrip: `Number` is exact, without the rounding of values beyond 2^53; the launcher's shell text is its printed sentinel.
- ShellOutcome: the managed-terminal and native-timeout envelopes and the user-facing notices.
- ShellGate: the platform without a gate, calls without a command, and the cancelling reset.
- Readers: path, symlink and permission checks, budgets and notices around the page.
- ReplaySafety: decoding frames and recognizing inline catalog lookups and echoes; frames arrive decoded.
- Catalog: sanitizing display names and parsing context limits are inputs; pricing, families, limits and defaults of an entry.
- HTTP/2 transport, OAuth, GitHub calls, process signals and the plugin entry points: foreign effects or glue.
