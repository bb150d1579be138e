# Verified models of the recursive-agent core

This project models six parts of recursive-agent in Dafny and proves what they promise.

* **Admission** (`Admission*.dfy`): the managed admission domain, as an interleaving of the critical
  sections of its mutex. Threads inside `reserve` are part of the state, with one bit that says whether
  the condition variable has released them since they last looked.
* **Context authority** (`Context*.dfy`): scopes, permits, approvals and receipts kept incrementally,
  against the validator that replays the journal before every write.
* **Permits** (`Permit*.dfy`): control-to-control-to-effect delegation, the parent's allocation map as
  reservation journal, and the single use of each permit.
* **Receipts** (`Lifecycle*.dfy`, `Continuity*.dfy`): the fifteen-kind lifecycle automaton and the offline
  permit continuity check, separately and together.
* **Ledger** (`Ledger*.dfy`): the newline-separated log, its chain digest, its metadata and the recovery of
  an interrupted append, over whole runs and at the size bound.
* **Autonomous loop** (`TreeSearch.dfy`, `Autonomous.dfy`): the tree search with its visit accounting, and the
  globally budgeted recursion on top of it.

Each part has a model of its operations as functions on a state value, the invariants every operation
keeps, and theorems over whole runs. Where the program changes an object in place there is also a class
(`AdmissionDomain.Domain`, `ContextStore.Store`, `PermitStore.DurableStore`, `LifecycleModel.Validator`,
`ContinuityCheck.Checker`, `LedgerHandle.ChainHandle`, `Autonomous.Runner`) whose methods run the loops and
updates step by step and are proved to perform exactly the transitions of the model.

Conventions:

* Content digests and derived ids are the values they are taken of. A grant contains its predecessor, a
  permit id contains its parent's id, a chain digest contains the bytes it covers. So they are injective
  and cannot form cycles.
* A signature carries the set of keys it verifies under; an approval witness carries the set of verifiers
  that accept it apart from the clock.
* Time is an integer number of milliseconds; clocks are parameters and may be anything the code accepts.
* How long a record, family or context state file is, is an arbitrary function of its content; the bounds on
  reading and writing them are modelled.
* `u64` and `usize` values are `U64`; saturating and checked additions are written out.
* A durable file is a map entry or field that is replaced at the rename; an interruption before the rename
  leaves the old value, one after it leaves the new value.

## Model

| member | source | states |
|---|---|---|
| AdmissionDomain.Domain.constructor | crates/recursive-agent-runner/src/managed_admission.rs:360-379 | a new domain is the empty state under its configuration, with ticket 1 next |
| AdmissionDomain.Domain.UnitsIn | crates/recursive-agent-runner/src/managed_admission.rs:1133-1140 | the nested walk over leaves and their lanes adds up to the units held on the lane |
| AdmissionDomain.Domain.Fits | crates/recursive-agent-runner/src/managed_admission.rs:1128-1147 | a request fits if and only if a slot is free and every lane it needs stays within its cap |
| AdmissionDomain.Domain.FirstOf | crates/recursive-agent-runner/src/managed_admission.rs:1156-1161 | the scan of the queue returns the first fitting leaf of the class |
| AdmissionDomain.Domain.NextTicket | crates/recursive-agent-runner/src/managed_admission.rs:1149-1162 | interactive leaves are looked at before normal ones |
| AdmissionDomain.Domain.BytesIn | crates/recursive-agent-runner/src/managed_admission.rs:1098-1106 | the saturating fold over a leaf map is the sum capped at the word size |
| AdmissionDomain.Domain.SelectedBytes | crates/recursive-agent-runner/src/managed_admission.rs:1093-1126 | the saturating fold over queue, active and draining leaves is the bytes held, capped at the word size |
| AdmissionDomain.Domain.InvalidLanes | crates/recursive-agent-runner/src/managed_admission.rs:611-624 | the lane loop reports the first zero, repeated, unknown or oversized lane |
| AdmissionDomain.Domain.ValidateRequest | crates/recursive-agent-runner/src/managed_admission.rs:563-624 | the request is refused for the first failing check, under the configuration seen then |
| AdmissionDomain.Domain.Refusal | crates/recursive-agent-runner/src/managed_admission.rs:404-459 | under the lock: fence, duplicate, simultaneous, context, artifact and budget-scope checks, in this order |
| AdmissionDomain.Domain.RemoveQueued | crates/recursive-agent-runner/src/managed_admission.rs:1089-1091 | exactly the leaves holding the ticket leave the queue |
| AdmissionDomain.Domain.CleanupScopeIfUnused | crates/recursive-agent-runner/src/managed_admission.rs:1070-1087 | a scope budget is dropped only when nothing queued, running or charged uses it |
| AdmissionDomain.Domain.WithdrawLeaf | crates/recursive-agent-runner/src/managed_admission.rs:533-546 | a thread leaves without a reservation and notifies nobody |
| AdmissionDomain.Domain.TakeLeaf | crates/recursive-agent-runner/src/managed_admission.rs:495-503 | the first leaf that holds the ticket leaves the queue, and no other |
| AdmissionDomain.Domain.AdmitLeaf | crates/recursive-agent-runner/src/managed_admission.rs:494-532 | the leaf moves from the queue to active with a fresh usage record, and everybody is notified |
| AdmissionDomain.Domain.TakeTurn | crates/recursive-agent-runner/src/managed_admission.rs:484-553 | one turn of the loop admits, leaves, withdraws or blocks, as the transition system says |
| AdmissionDomain.Domain.Submit | crates/recursive-agent-runner/src/managed_admission.rs:455-474 | scope budget, selection, ticket and queue entry of a submission |
| AdmissionDomain.Domain.ReserveNow | crates/recursive-agent-runner/src/managed_admission.rs:391-553 | `reserve` up to its first wait is the reserve transition, including the rollback of a full queue |
| AdmissionDomain.Domain.ResumeWaiter | crates/recursive-agent-runner/src/managed_admission.rs:548-559 | a thread that gets the lock back performs the resume transition, timed out or not |
| AdmissionDomain.Domain.ReconfigureTo | crates/recursive-agent-runner/src/managed_admission.rs:629-648 | only a valid, newer configuration is taken, with room for what is already queued |
| AdmissionDomain.Domain.SetInFlight | crates/recursive-agent-runner/src/managed_admission.rs:694-722 | the in-flight mark changes only on a provider leaf that is active or draining |
| AdmissionDomain.Domain.TakeChildren | crates/recursive-agent-runner/src/managed_admission.rs:747-760 | the queue is split into the children of the parent and the rest, both in order |
| AdmissionDomain.Domain.CancelLeaves | crates/recursive-agent-runner/src/managed_admission.rs:761-765 | the one-by-one loop deselects and cancels the children and drops exactly the scopes nobody retains |
| AdmissionDomain.Domain.DrainLeaves | crates/recursive-agent-runner/src/managed_admission.rs:767-785 | the loop over active children equals draining them all at once |
| AdmissionDomain.Domain.MarkDescendantsDraining | crates/recursive-agent-runner/src/managed_admission.rs:736-790 | the whole fence is the fence transition, with its count and its conditional notification |
| AdmissionDomain.Domain.ReleaseLeaf | crates/recursive-agent-runner/src/managed_admission.rs:908-921 | an active leaf is released or the call is refused |
| AdmissionDomain.Domain.Drain | crates/recursive-agent-runner/src/managed_admission.rs:923-942 | an active leaf moves to draining, marked if its provider call is open |
| AdmissionDomain.Domain.ReconcileLeaf | crates/recursive-agent-runner/src/managed_admission.rs:952-975 | a draining leaf goes only when its provider call is over |
| AdmissionDomain.Domain.ScopeUsage | crates/recursive-agent-runner/src/managed_admission.rs:1022-1040 | the saturating fold gives the capped total of every dimension over the scope's records |
| AdmissionDomain.Domain.ChargeLeaf | crates/recursive-agent-runner/src/managed_admission.rs:977-1060 | usage is added first, then the first dimension over budget is reported |
| AdmissionDomain.Domain.Drop | crates/recursive-agent-runner/src/managed_admission.rs:1252-1265 | dropping releases, or failing that reconciles |
| AdmissionTheorems.StepKeepsInv | crates/recursive-agent-runner/src/managed_admission.rs:391-1060 | every critical section keeps: tickets in order, selection equal to the disjoint union of queued, active and draining ids, records and budgets for everything running, fences, and the signal bits |
| AdmissionTheorems.RunKeepsInv | crates/recursive-agent-runner/src/managed_admission.rs:326-379 | the invariant holds after every prefix of every run that does not exhaust the ticket counter |
| AdmissionTheorems.NoLostWakeup | crates/recursive-agent-runner/src/managed_admission.rs:484-559 | whenever the lock is free and some leaf may be admitted, its thread has been signalled since it last looked, and so has every thread whose leaf was fenced away |
| AdmissionInvariant.NextWithout | crates/recursive-agent-runner/src/managed_admission.rs:1149-1162 | removing a leaf that is not next leaves the next ticket as it was |
| AdmissionTickets.EitherWithdrawalIsExact | crates/recursive-agent-runner/src/managed_admission.rs:467-482 | of two submissions either can be withdrawn with the selection exact if and only if the first took a ticket of its own |
| AdmissionTickets.WithdrawalIsExactUntilTicketsRunOut | crates/recursive-agent-runner/src/managed_admission.rs:467-558 | one accepted submission waits and another gives up: the selection stays exact if and only if the first found the saturating ticket counter unexhausted; if the other is let in instead, it is let in as itself under the same condition |
| AdmissionTickets.TicketsRunOut | crates/recursive-agent-runner/src/managed_admission.rs:467-482 | in every valid configuration a run exhausts the counter, fills every slot and then accepts two submissions after which the selection is no longer exact |
| AdmissionCapacity.OnlyReserveRaises | crates/recursive-agent-runner/src/managed_admission.rs:629-975 | no step but submission or admission raises slots, queue length, bytes held or units used |
| AdmissionCapacity.StepRaisesWithin | crates/recursive-agent-runner/src/managed_admission.rs:432-482 | any step that raises an occupancy ends within the cap in force, across reconfigurations |
| AdmissionCapacity.UnitsOfOneLane | crates/recursive-agent-runner/src/managed_admission.rs:611-615 | with no lane named twice, a leaf holds what its one requirement says |
| AdmissionRuns.RaisedOnlyWithin | crates/recursive-agent-runner/src/managed_admission.rs:629-975 | in every run, only submission or admission raises an occupancy, and whatever a step raises ends within the cap then in force |
| AdmissionRuns.CapacitySafety | crates/recursive-agent-runner/src/managed_admission.rs:432-482 | without reconfiguration, slots, queue, both byte pools and every lane stay within their caps in every reachable state |
| AdmissionPolicy.LaneCapIff | crates/recursive-agent-runner/src/managed_admission.rs:1140-1146 | a lane stays within its cap in all runs if and only if the cap is below the largest word; at the largest word the saturating sum lets an overflow through |
| AdmissionPolicy.NextNoneIff | crates/recursive-agent-runner/src/managed_admission.rs:1149-1162 | nothing is next if and only if nothing queued fits |
| AdmissionPolicy.AdmissionIsFair | crates/recursive-agent-runner/src/managed_admission.rs:493-532 | whoever is admitted fits, is normal only if no interactive leaf fits, and passes no earlier leaf of its class that needs no more of any lane |
| AdmissionPolicy.NextIsServed | crates/recursive-agent-runner/src/managed_admission.rs:548-559 | when something fits, the next thread is signalled and is admitted when it runs, even after a timeout |
| AdmissionRuns.AdmittedOnce | crates/recursive-agent-runner/src/managed_admission.rs:409-422 | no operation id is admitted twice in a run |
| AdmissionRuns.FencedForever | crates/recursive-agent-runner/src/managed_admission.rs:736-790 | after a fence no leaf of that parent is ever queued or active again |
| AdmissionFences.SurvivesIff | crates/recursive-agent-runner/src/managed_admission.rs:736-790 | an active leaf survives a fence, unchanged, if and only if it names another parent or none; otherwise it drains as it was |
| AdmissionFences.GrandchildStays | crates/recursive-agent-runner/src/managed_admission.rs:736-790 | in every valid configuration with two slots a run has a child and its child running, and fencing the child's parent leaves the grandchild running |
| AdmissionRuns.PinnedUntilReported | crates/recursive-agent-runner/src/managed_admission.rs:952-975 | a draining leaf with an open provider call stays as it is until that call is reported over |
| AdmissionRuns.DropIsTwoSteps | crates/recursive-agent-runner/src/managed_admission.rs:1252-1265 | a drop is a release followed, if that fails, by a reconciliation, so the run theorems cover it |
| AdmissionRuns.ChargeIff | crates/recursive-agent-runner/src/managed_admission.rs:977-1060 | a charge on a live operation succeeds if and only if all six capped scope totals fit the scope's budget; its two poisoned-state errors are unreachable |
| AdmissionRuns.RunRemembers | crates/recursive-agent-runner/src/managed_admission.rs:455-464 | usage records, the budget of a scope in use, and fences are never lost |
| AdmissionRuns.OutspentForever | crates/recursive-agent-runner/src/managed_admission.rs:1022-1059 | once a scope is over budget every later charge in it fails, whatever happens in between |
| ContextStore.ApplyOne | crates/recursive-agent-policy/src/context_authority.rs:448-485 | one grant is applied, superseding, confirming or creating its scope, or refused |
| ContextStore.RevokeAll | crates/recursive-agent-policy/src/context_authority.rs:487-491 | exactly the scopes a configuration omits become inactive |
| ContextStore.ApplyAll | crates/recursive-agent-policy/src/context_authority.rs:433-494 | the loop over the grants and the revocation of the rest, with all its refusals |
| ContextStore.ObligationsHold | crates/recursive-agent-policy/src/context_authority.rs:1074-1120 | a historical receipt is accepted if and only if it lists exactly what was consumed below its successor, as recorded |
| ContextStore.OpenHeads | crates/recursive-agent-policy/src/context_authority.rs:1132-1149 | the loop collects the open heads with the current verifier |
| ContextStore.ReplayOne | crates/recursive-agent-policy/src/context_authority.rs:1023-1150 | one journal event is replayed or refused |
| ContextStore.ReplayJournal | crates/recursive-agent-policy/src/context_authority.rs:1005-1150 | the loop over the journal gives the replayed state or refuses |
| ContextStore.ProjectionHolds | crates/recursive-agent-policy/src/context_authority.rs:1151-1193 | the projection is compared with the replay, scope by scope and permit by permit |
| ContextStore.InventoryHolds | crates/recursive-agent-policy/src/context_authority.rs:1226-1313 | bounds, charges, identities and receipts of the stored state |
| ContextStore.Validate | crates/recursive-agent-policy/src/context_authority.rs:1226-1314 | the validator accepts exactly the valid states |
| ContextStore.Store.constructor | crates/recursive-agent-policy/src/context_authority.rs:556-583 | a new authority is empty but for its incarnation |
| ContextStore.Store.Replace | crates/recursive-agent-policy/src/context_authority.rs:1316-1354 | only a valid state within the size bound is written, and only from the rename on is it there |
| ContextStore.Store.EnrollConfiguration | crates/recursive-agent-policy/src/context_authority.rs:586-618 | enrollment performs its transition and reply, including the unchanged re-enrollment |
| ContextStore.Store.PlanIssue | crates/recursive-agent-policy/src/context_authority.rs:620-714 | the checks of an issue, in order, end in a refusal, the permit already held, or the state to write |
| ContextStore.Store.IssuePermit | crates/recursive-agent-policy/src/context_authority.rs:620-714 | issue performs its transition and reply, with every refusal and the idempotent retry |
| ContextStore.Store.ConsumePermit | crates/recursive-agent-policy/src/context_authority.rs:716-782 | consumption performs its transition and reply |
| ContextStore.Store.PlanTransition | crates/recursive-agent-policy/src/context_authority.rs:784-878 | the checks of a transition, in order, end in a refusal, the receipt already held, or the state to write |
| ContextStore.Store.TransitionContext | crates/recursive-agent-policy/src/context_authority.rs:784-878 | a transition performs its transition and reply, readback and interruption included |
| ContextStore.Store.SettlePermit | crates/recursive-agent-policy/src/context_authority.rs:899-941 | settlement performs its transition and reply |
| ContextInvariant.ReplaySplits | crates/recursive-agent-policy/src/context_authority.rs:1023-1150 | the replay is a fold over the journal together with an obligation check per transition, in any order |
| ContextInvariant.InvIsValid | crates/recursive-agent-policy/src/context_authority.rs:1005-1314 | the invariant of the incremental state is enough for the validator |
| ContextTheorems.ReplayAcceptsIff | crates/recursive-agent-policy/src/context_authority.rs:1005-1194 | whatever an operation's own checks accept, the replay accepts if and only if the journal has room, an issued effect is well formed, and a transition's clock is not behind what its scope recorded |
| ContextRejections.FullJournalOverrules | crates/recursive-agent-policy/src/context_authority.rs:1005-1194 | a reachable store accepts an enrollment that the replay rejects because the journal is full |
| ContextRejections.EmptyBudgetOverrules | crates/recursive-agent-policy/src/context_authority.rs:1005-1194 | a reachable store accepts an issue that the replay rejects because the effect's budget is empty |
| ContextRejections.LateClockOverrules | crates/recursive-agent-policy/src/context_authority.rs:1005-1194 | a reachable store accepts a retirement that the replay rejects because a consumption was recorded later than its clock |
| ContextTheorems.NoFalseRejection | crates/recursive-agent-policy/src/context_authority.rs:1316-1325 | with a clock that never goes back, well-formed effects and room in the journal, what an operation accepted is written if and only if the state stays within the size bound, in any run |
| ContextTheorems.RunStaysWritable | crates/recursive-agent-policy/src/context_authority.rs:1196-1224 | every state of every run is valid and within the bound on reading it |
| ContextTheorems.RunKeepsInv | crates/recursive-agent-policy/src/context_authority.rs:326-339 | scopes, heads, charges and obligation lists equal the replay after every operation of every run |
| ContextSteps.NewReceiptIff | crates/recursive-agent-policy/src/context_authority.rs:846-852 | a new receipt passes the historical check if and only if nothing in its scope was recorded after it |
| ContextTheorems.RunMovesOn | crates/recursive-agent-policy/src/context_authority.rs:447-491 | per scope, supersession count, generation and mode never go back, and a revoked grant never stands again |
| ContextTheorems.NoResurrection | crates/recursive-agent-policy/src/context_authority.rs:382-404 | a binding that stood and then did not never stands again |
| ContextTheorems.FallenPermitsStay | crates/recursive-agent-policy/src/context_authority.rs:716-782 | an unconsumed permit of a fallen binding is never consumed |
| ContextTheorems.RunExtends | crates/recursive-agent-policy/src/context_authority.rs:326-339 | approvals, preflights, outcomes, receipts and journal entries are written once and never change |
| ContextTheorems.ApprovalBoundOnce | crates/recursive-agent-policy/src/context_authority.rs:668-678 | an effect approval is bound to at most one scoped permit, over the whole run |
| ContextTheorems.ConsumedByWhom | crates/recursive-agent-policy/src/context_authority.rs:716-782 | a permit is consumed if and only if some earlier operation consumed it |
| ContextTheorems.ConsumedOnce | crates/recursive-agent-policy/src/context_authority.rs:739-749 | at most one operation consumes a permit |
| ContextTheorems.ReceiptListsConsumed | crates/recursive-agent-policy/src/context_authority.rs:406-430 | a receipt lists exactly the permits of its scope consumed by earlier operations, each as it then stood, for ever |
| ContextTheorems.LaterReceiptsExtend | crates/recursive-agent-policy/src/context_authority.rs:846-876 | a later receipt of a scope lists everything an earlier one did |
| ContextTheorems.RetryIsReadback | crates/recursive-agent-policy/src/context_authority.rs:796-802 | repeating a recorded transition returns the stored receipt and changes nothing, even if the first caller was interrupted |
| PermitStore.CheckCeiling | crates/recursive-agent-policy/src/lib.rs:660-714 | the two passes accept exactly the ceilings with sorted, distinct audiences and actions |
| PermitStore.CheckedTotal | crates/recursive-agent-policy/src/lib.rs:2852-2857 | the checked fold gives the totals, or reports an overflow that really exists |
| PermitStore.Fits | crates/recursive-agent-policy/src/lib.rs:2852-2866 | allocations fit if and only if every dimension's sum is within the ceiling |
| PermitStore.DurableStore.constructor | crates/recursive-agent-policy/src/lib.rs:2577-2604 | a new store has no records |
| PermitStore.DurableStore.ReadRecord | crates/recursive-agent-policy/src/lib.rs:3459-3484 | a record is read unless it is missing, too long, filed under another id or inconsistent |
| PermitStore.DurableStore.ScanDirectory | crates/recursive-agent-policy/src/lib.rs:2984-3024 | the scan succeeds if and only if every record can be read |
| PermitStore.DurableStore.ReplaceRecord | crates/recursive-agent-policy/src/lib.rs:3575-3613 | a checked record is replaced atomically at the rename, whatever its size |
| PermitStore.DurableStore.ReserveFamily | crates/recursive-agent-policy/src/lib.rs:2880-2981 | after a complete scan and with a family file that can be read, an attempt number is reserved once, for one permit, within the family's ceiling |
| PermitStore.DurableStore.ChargeParent | crates/recursive-agent-policy/src/lib.rs:2832-2871 | the child's budget is reserved in the parent record before the child exists, with both crash points |
| PermitStore.DurableStore.Issue | crates/recursive-agent-policy/src/lib.rs:2741-2878 | issue performs its transition and reply at every crash point |
| PermitStore.DurableStore.Consume | crates/recursive-agent-policy/src/lib.rs:3298-3327 | plain consumption with every interruption |
| PermitStore.DurableStore.ConsumeWithPreflight | crates/recursive-agent-policy/src/lib.rs:3160-3205 | consumption with a preflight receipt, checked at both clock readings |
| PermitStore.DurableStore.ConsumeNormalChat | crates/recursive-agent-policy/src/lib.rs:3064-3148 | normal-chat consumption under the current policy decision |
| PermitStore.DurableStore.Revoke | crates/recursive-agent-policy/src/lib.rs:3338-3369 | revocation leaves only an issued permit revoked |
| PermitStore.DurableStore.RecordOutcome | crates/recursive-agent-policy/src/lib.rs:3253-3296 | the first report is stored; of a record that can be read the same report is acknowledged and another refused |
| PermitStore.DurableStore.SettleNormalChat | crates/recursive-agent-policy/src/lib.rs:3210-3251 | the first settlement is stored if it is within the permit; of a record that can be read the same one is acknowledged |
| PermitInvariant.StepKeepsInv | crates/recursive-agent-policy/src/lib.rs:2741-3613 | every operation, interrupted anywhere, keeps records filed under their ids and consistent, parents present and charged, and reservations within ceilings |
| PermitInvariant.RunKeepsInv | crates/recursive-agent-policy/src/lib.rs:3459-3573 | so in every reachable store |
| PermitInvariant.ReadBackIff | crates/recursive-agent-policy/src/lib.rs:3459-3573 | in every reachable store a record is read back as it was written if and only if it, and the family file where it needs that, is short enough to be read |
| PermitTree.TreeConservation | crates/recursive-agent-policy/src/lib.rs:2832-2877 | the budgets of all effects anywhere below a control sum within its ceiling, in each dimension |
| PermitTree.ReachableConservation | crates/recursive-agent-policy/src/lib.rs:2840-2877 | this and the allocation sum hold in every reachable store, also after a crash between parent and child |
| PermitTree.EffectWithinRoot | crates/recursive-agent-policy/src/lib.rs:3760-3842 | an effect below a control has its actor, run, policy, window and budget inside the control's ceiling, and one of its actions, roots and executables (or is a chat retry of one) |
| PermitTree.ControlInside | crates/recursive-agent-policy/src/lib.rs:3843-3883 | every control below another has a ceiling inside it |
| PermitTree.Pigeonhole | crates/recursive-agent-policy/src/lib.rs:685-711 | strictly sorted actions drawn from a list are no more than the list |
| PermitTree.ReachableAttenuation | crates/recursive-agent-policy/src/lib.rs:3760-3883 | in every reachable store, effects below a control are within its ceiling, controls below it have ceilings inside it, and the chain is shorter than actions plus budget plus window |
| PermitTree.ChainIsShort | crates/recursive-agent-policy/src/lib.rs:3865-3882 | each control-to-control edge shrinks actions plus budget plus window, so a chain is no longer than that sum at its root |
| PermitUse.RunExtends | crates/recursive-agent-policy/src/lib.rs:3575-3613 | records are never lost or rebound; what left Issued stays; outcomes and settlements stay |
| PermitUse.ConsumedOnce | crates/recursive-agent-policy/src/lib.rs:3661-3678 | at most one consuming call on a permit returns evidence, by any path |
| PermitUse.SpentForever | crates/recursive-agent-policy/src/lib.rs:2824-2831 | a permit that left Issued is never consumed, revoked or issued again |
| PermitUse.NoChildOfASpentControl | crates/recursive-agent-policy/src/lib.rs:3760-3800 | once a control is not Issued none of its children is consumed |
| PermitUse.OutcomeIsFinal | crates/recursive-agent-policy/src/lib.rs:3253-3296 | a reported outcome is first-write-wins: any other report is refused, and the same report again returns the stored record if and only if that can be read |
| PermitUse.SettlementIsFinal | crates/recursive-agent-policy/src/lib.rs:3210-3251 | a settlement is first-write-wins: any other is refused, and the same settlement again returns the stored record if and only if that can be read |
| PermitRetry.RetryAfterCrash | crates/recursive-agent-policy/src/lib.rs:2840-2877 | in any reachable store a later issue of the same permit id, also with new absolute times, ends after a crash in the store and with the permit it would have ended with had the first never been made, if and only if the family file, the charged parent and the child that were written are short enough to be read; a completed issue refuses other absolute times |
| PermitBound.IssueCanOutgrow | crates/recursive-agent-policy/src/lib.rs:3459-3484 | if each audience takes a byte, some issue is acknowledged and its permit can in no later state be read, revoked, used, delegated or issued again |
| PermitBound.ChargeCanOutgrow | crates/recursive-agent-policy/src/lib.rs:2840-2877 | if each allocation takes a byte, some reachable store accepts an issue that makes its parent too long to read: acknowledged it loses the parent, cut after the charge it can never be repeated |
| PermitBound.OutcomeCanOutgrow | crates/recursive-agent-policy/src/lib.rs:3253-3296 | if an outcome takes at least what one letter does, some reachable store acknowledges a report and refuses the same report afterwards |
| PermitBound.CountWeighs | crates/recursive-agent-policy/src/lib.rs:3575-3613 | sizes with all these properties exist |
| PermitFamilies.ReserveKeeps | crates/recursive-agent-policy/src/lib.rs:2880-2933 | a reservation keeps every family within its ceiling and loses no attempt already reserved |
| PermitFamilies.ChatAttemptsAreBounded | crates/recursive-agent-policy/src/lib.rs:2880-2933 | in every reachable store the chat permits consumed under a control are no more than its family allows, and no attempt number serves two permits |
| LifecycleModel.Validator.constructor | crates/recursive-agent-contracts/src/lib.rs:1138-1149 | the validator starts with nothing seen |
| LifecycleModel.Validator.SetTerminal | crates/recursive-agent-contracts/src/lib.rs:1470-1480 | a terminal cause is set once; a second one is reported |
| LifecycleModel.Validator.Step | crates/recursive-agent-contracts/src/lib.rs:1192-1272 | step start and the four permit events move the step or are refused |
| LifecycleModel.Validator.Observe | crates/recursive-agent-contracts/src/lib.rs:1273-1358 | storing, completing and failing a step, with the artifacts it may cite |
| LifecycleModel.Validator.Child | crates/recursive-agent-contracts/src/lib.rs:1371-1408 | a child is prepared, linked and closed once each, in order |
| LifecycleModel.Validator.Run | crates/recursive-agent-contracts/src/lib.rs:1172-1191 | start, admission, cancellation and finalization of the run |
| LifecycleModel.Validator.Take | crates/recursive-agent-contracts/src/lib.rs:1150-1171 | one receipt advances the automaton or is refused |
| LifecycleModel.Validate | crates/recursive-agent-contracts/src/lib.rs:1125-1454 | a sequence is accepted in a mode if and only if the automaton takes every receipt and, in strict mode, was finalized |
| LifecycleTheorems.PrefixClosed | crates/recursive-agent-contracts/src/lib.rs:1150-1443 | every prefix of an accepted sequence is accepted |
| LifecycleTheorems.NoDeadEnd | crates/recursive-agent-contracts/src/lib.rs:1125-1454 | every begun, unfinished sequence has an extension the strict mode accepts, ending in the cause recorded so far or in success |
| ContinuityFinish.FinishableIff | crates/recursive-agent-ledger/src/lib.rs:2248-2470 | a begun, unfinished transcript that lifecycle and continuity accept can be finished with added evidence if and only if no more steps have lost their control than there are failure causes left |
| ContinuityStranded.StrandedIsReached | crates/recursive-agent-ledger/src/lib.rs:2248-2470 | a transcript whose control is closed under a running effect and which is then cancelled is accepted and can never be finished |
| LedgerEndings.FinishableUnlessStranded | crates/recursive-agent-ledger/src/lib.rs:2227-2246 | an authoritative unfinished sequence has an authoritative finalized extension, with artifacts added, if and only if it is not stranded |
| LedgerEndings.SomeLogIsStranded | crates/recursive-agent-ledger/src/lib.rs:2227-2246 | some authoritative sequence has no authoritative finalized extension |
| LifecycleTheorems.OneStartOneEnd | crates/recursive-agent-contracts/src/lib.rs:1152-1178 | one RunStarted, first; one RunFinalized, last; one run id |
| LifecycleTheorems.CompletedInOrder | crates/recursive-agent-contracts/src/lib.rs:1300-1330 | a completed step was started, permitted, spent and stored, in this order, and cites only artifacts stored for it |
| LifecycleTheorems.SucceededIff | crates/recursive-agent-contracts/src/lib.rs:1409-1443 | a finished run succeeded if and only if nothing was rejected, denied, failed or cancelled; then prepared, linked and closed children are the same |
| ContinuityCheck.Checker.constructor | crates/recursive-agent-ledger/src/lib.rs:2275-2293 | the checker starts with nothing retained |
| ContinuityCheck.Checker.Issued | crates/recursive-agent-ledger/src/lib.rs:2463-2572 | an issued permit is retained once per step, a control once, an effect under an issued control within its ceiling |
| ContinuityCheck.Checker.Ended | crates/recursive-agent-ledger/src/lib.rs:2573-2621 | a permit ends once, with the same permit; a control's revocation must list its exact allocations |
| ContinuityCheck.Checker.Take | crates/recursive-agent-ledger/src/lib.rs:2328-2460 | one receipt continues the story or contradicts it |
| ContinuityCheck.CollectEgress | crates/recursive-agent-ledger/src/lib.rs:2295-2326 | the first pass collects one bound admission per step, with its position, or refuses |
| ContinuityCheck.Check | crates/recursive-agent-ledger/src/lib.rs:2248-2626 | both passes accept exactly the sequences that tell a consistent story |
| ContinuityTheorems.SuccessClosesAuthority | crates/recursive-agent-ledger/src/lib.rs:2328-2626 | in a transcript accepted by lifecycle and continuity and finalized successfully, every effect was consumed and completed between the issue and any revocation of its control, and every control was closed by evidence listing exactly its effects within its ceiling |
| ContinuityTheorems.EffectInsideControl | crates/recursive-agent-ledger/src/lib.rs:2328-2393 | every effect permit was consumed and its step completed after its control was issued and before any revocation of it |
| ContinuityTheorems.ControlClosesExactly | crates/recursive-agent-ledger/src/lib.rs:2606-2621 | every control was closed by its operator with evidence that lists exactly the effects issued under it, at their budgets, within its ceiling |
| ContinuityTheorems.SpentCompletes | crates/recursive-agent-contracts/src/lib.rs:1273-1358 | in a successful run every consumed permit's step is completed later |
| LedgerHandle.ScanComplete | crates/recursive-agent-ledger/src/lib.rs:681-726 | the line-by-line scan returns the scan of the log or refuses |
| LedgerHandle.TakeLine | crates/recursive-agent-ledger/src/lib.rs:693-721 | one line must be canonical, new and chained to the head |
| LedgerHandle.CheckAuthoritative | crates/recursive-agent-ledger/src/lib.rs:2227-2246 | lifecycle, artifacts and permit continuity together |
| LedgerHandle.ChainHandle.RecoverTail | crates/recursive-agent-ledger/src/lib.rs:652-679 | an unfinished last record is completed, cut off, or refused as ambiguous, and a refused log is left alone |
| LedgerHandle.ChainHandle.ReconcileFiles | crates/recursive-agent-ledger/src/lib.rs:777-793 | recovery, scan, validation and metadata repair; on refusal the metadata stays and the log is the old one or its recovery |
| LedgerHandle.ChainHandle.Open | crates/recursive-agent-ledger/src/lib.rs:752-768 | an opened handle knows the head, length and ids of the recovered log; a refused open leaves no more than the recovered log |
| LedgerHandle.ChainHandle.Append | crates/recursive-agent-ledger/src/lib.rs:875-944 | an append leaves the log and metadata of its cut and moves the handle only when everything was written; a refused append leaves the recovered files |
| LedgerTheorems.AcceptedIff | crates/recursive-agent-ledger/src/lib.rs:681-726 | a log is accepted and reads back as a sequence if and only if it is the encoding of that sequence and the sequence is chained and live |
| LedgerTheorems.HeadCommits | crates/recursive-agent-ledger/src/lib.rs:585-598 | two accepted logs with the same head are the same bytes |
| LedgerTheorems.AppendIsAtomic | crates/recursive-agent-ledger/src/lib.rs:875-944 | after a cut at any byte or metadata stage, recovery yields the old chain or the old chain plus the whole receipt, with matching metadata, and is idempotent |
| LedgerTheorems.RecoverableIff | crates/recursive-agent-ledger/src/lib.rs:634-642 | every cut of an append is recoverable, again and again, if and only if old log and new line stay within the size recovery reads; the append itself does not check this |
| LedgerBound.AppendCanOutgrow | crates/recursive-agent-ledger/src/lib.rs:875-944 | for every codec and every environment there are a log and an entry whose append is accepted and acknowledged, and after which nobody can open the log |
| LedgerTheorems.ReconcileIsIdempotent | crates/recursive-agent-ledger/src/lib.rs:616-679 | reconciling reconciled files changes nothing, unless the log was as long as may be read and its last record complete but for the newline; then the recovered log is always refused |
| LedgerBound.CompletionOutgrows | crates/recursive-agent-ledger/src/lib.rs:634-679 | for every codec, an encoding one byte longer than may be read and missing its last newline is accepted, completed, and never opened again |
| LedgerCodec.RecoveryCanOutgrow | crates/recursive-agent-ledger/src/lib.rs:634-679 | there is such a log: recovery accepts and completes it, and nobody can open it again |
| LedgerCodec.StructuralIsCanonical | crates/recursive-agent-ledger/src/lib.rs:658-676 | a codec exists with what is assumed of canonical JSON: one non-empty line per record, parsed back to it, every proper part incomplete |
| LedgerRuns.OpensIff | crates/recursive-agent-ledger/src/lib.rs:616-679 | a log that records something is opened if and only if it is short enough to be read and what it records is authoritative |
| LedgerRuns.CallExtends | crates/recursive-agent-ledger/src/lib.rs:777-944 | an open or append, cut anywhere, also inside recovery, adds its own entry as a whole or nothing, and an acknowledged one is added |
| LedgerRuns.NothingIsLost | crates/recursive-agent-ledger/src/lib.rs:777-944 | over any run of opens and appends with any cuts, each log records everything the earlier ones did in the same order, and an acknowledged entry stays where it was put |
| LedgerRuns.StaysOpen | crates/recursive-agent-ledger/src/lib.rs:777-944 | while appends leave room, a log that opens opens after every call of every run, however cut, and opening it twice changes nothing |
| LedgerTheorems.HeadMakesUnique | crates/recursive-agent-ledger/src/lib.rs:947-962 | a receipt that names the current head cannot be a duplicate |
| TreeSearch.SearchBounded | crates/recursive-agent-mcts/src/lib.rs:46-93 | the loop computes the tree after the clamped number of iterations at the clamped depth |
| TreeSearch.SearchedIsBalanced | crates/recursive-agent-mcts/src/lib.rs:46-93 | whatever is drawn and chosen, inner visits equal the sum of the children's, names are distinct tools, and the root counts the iterations |
| TreeSearch.GrowInPlace | crates/recursive-agent-mcts/src/lib.rs:57-85 | the walk down is the growth step of the model |
| TreeSearch.GrowKeeps | crates/recursive-agent-mcts/src/lib.rs:57-85 | growing keeps every count and yields a path of the full depth |
| TreeSearch.UpdateKeeps | crates/recursive-agent-mcts/src/lib.rs:108-116 | one more visit along a full path keeps every sum right |
| TreeSearch.BestPath | crates/recursive-agent-mcts/src/lib.rs:94-107 | the loop follows visited children as preferred, for any tree |
| TreeSearch.FollowedIsFull | crates/recursive-agent-mcts/src/lib.rs:94-107 | in a visited, balanced tree the best path has exactly the searched depth and consists of tools |
| TreeSearch.SelectionIsTotal | crates/recursive-agent-mcts/src/lib.rs:46-107 | any search of at least one iteration selects a full path of tools |
| Autonomous.Select | crates/recursive-agent-runner/src/autonomous.rs:746-778 | the selection is the first intent of the selected name; "no intent" and "unknown intent" cannot be reported |
| Autonomous.Runner.constructor | crates/recursive-agent-runner/src/autonomous.rs:576-595 | a new runner has used nothing |
| Autonomous.Runner.Guard | crates/recursive-agent-runner/src/autonomous.rs:856-870 | cancellation, then depth, steps and output, then time: the first obstacle or none |
| Autonomous.Runner.Decide | crates/recursive-agent-runner/src/autonomous.rs:682-778 | the loop goes on only with an intent planned for the current observation, and with budget left |
| Autonomous.Runner.Execute | crates/recursive-agent-runner/src/autonomous.rs:782-819 | a step is counted before it is executed, never beyond the budget, and its output is what the executor returned |
| Autonomous.Runner.Turn | crates/recursive-agent-runner/src/autonomous.rs:681-853 | one turn of the loop, delegation included, keeps the counters within the budget and uses a step if the loop goes on |
| Autonomous.Runner.RunNodeInner | crates/recursive-agent-runner/src/autonomous.rs:655-854 | the loop of a node ends |
| Autonomous.Runner.RunNode | crates/recursive-agent-runner/src/autonomous.rs:614-653 | the recursion ends |
| Autonomous.Runner.Run | crates/recursive-agent-runner/src/autonomous.rs:601-612 | a run keeps the counters within the budget; an oversized input executes nothing |
| Autonomous.RunToTheEnd | crates/recursive-agent-runner/src/autonomous.rs:575-854 | for every planner and executor: executor calls within max_steps, delegations within max_children, depth within max_depth over the whole tree, and nothing executed that was not planned |

## Left out

- AdmissionTheorems.RunKeepsInv: runs are followed until the `u64` ticket counter is exhausted; beyond that the invariant is false, by `AdmissionTickets.TicketsRunOut`, and what decides it is stated by `AdmissionTickets.WithdrawalIsExactUntilTicketsRunOut`. Two threads that then wait on one ticket are one entry of the thread map.
- AdmissionRuns.FencedForever: only leaves that name the fenced parent directly are affected, as in the code; the operation's name and documentation speak of descendants, see `AdmissionFences.GrandchildStays`.
- AdmissionCapacity.StepRaisesWithin: a lane whose cap is the largest word is exempt, see `LaneCapIff`; the unchecked `sum` of units that would then overflow is modelled without a bound.
- ContextStore.Store.IssuePermit: the clock-independent checks on a witness (identifiers, call shape, target root, key, signature) are one property of the witness; a permit argument whose id does not match its content is not a value of the model.
- ContextStore.Store.TransitionContext: the obligations of a receipt are a map from permit to obligation; their order in the file is not modelled.
- PermitStore.DurableStore.Issue: the shape checks on executables and the fence that context enrollment puts on this namespace only refuse more and are not modelled.
- PermitStore.DurableStore.ReserveFamily: the limit of 4096 directory entries in the scan, which counts files that are no records, only refuses more and is not modelled.
- PermitStore.DurableStore.ConsumeNormalChat: the decision of the chat policy is a parameter.
- LedgerTheorems.AppendIsAtomic: of the JSON codec it is assumed that a record is one non-empty line that parses back to itself and that every proper part of it parses as incomplete. `LedgerCodec.StructuralIsCanonical` shows a codec with these properties.
- TreeSearch.SearchBounded: scores, the confidence bound and the pseudo-random draw are arbitrary functions; the tree is a value that is rebuilt rather than nodes changed through references.
- LifecycleModel.Validate: the legacy mode, which checks nothing, is not modelled.
- Autonomous.Runner.Turn: transcript, memory and skill calls are calls that may fail; what they store is not modelled.
- The family authority store, run-pack export, event projection, protocol framing, egress, MCP and provider modules: not modelled; they would add mostly single-branch checks.
- The transcript file of the autonomous loop: not modelled; it repeats the ledger's argument on a smaller format.
- File descriptors, locks, fsync mechanics and temporary names: a critical section is one step.
- Sub-millisecond parts of times, which permit ids truncate: not modelled.
- Admission snapshots, connection counters and mutex poisoning: observation only.
