# Formal model of CME

CME builds mutual exclusion between hosts from plain 64-byte loads and stores on shared memory, and a node daemon,
cmed, shares one held turn among local processes. This project models its protocols as state machines over their
shared lines and proves what they promise, for any number of peers, domains and requesters, and over every run.

| file | what it models |
|---|---|
| TreeGeometry.dfy, Tournament.dfy, Climb.dfy, PetersonPolicy.dfy, PetersonLock.dfy | the tournament-Peterson lock: tree arithmetic, the lock, its loops, and the policy that shares one win among threads, as a machine and as its lock and unlock |
| StakeClaim.dfy, StakeExact.dfy, StakeProgress.dfy, Claim.dfy, Admission.dfy | the timed claim on one last-writer-wins word, as the admission lease uses it, exactly which delays it tolerates, and that no death wedges it |
| RecoveryClaim.dfy, RecoveryPatient.dfy, RecoverySafety.dfy, RecoveryExact.dfy, RecoveryAuthority.dfy | the same claim as recovery authorities use it, the seizures it guards, and exactly which sweeps and resets it tolerates |
| Ownership.dfy, OwnershipSafety.dfy, OwnershipRun.dfy, OwnershipTransfer.dfy, OwnershipLeave.dfy, OwnershipLeaveRuns.dfy | the truth record, group shadows, pins, the transfer latch, beliefs, crashes and seizures, and the unlatched hand-off of a leave |
| TurnHandshake.dfy, RequestSlot.dfy, AnswerWait.dfy | the cmed turn: requesters, grants, hand-backs, sweeps and deletes |
| Dispatcher.dfy, ServeHandler.dfy | the doorbell, the pending bits and the workers |
| Registry.dfy, Handles.dfy, HandleRuns.dfy, HandleLock.dfy, Lifecycle.dfy | slots, incarnations and handles |
| Layout.dfy, Bitmap.dfy, Basics.dfy, Histories.dfy | the region layout, the bitmaps, and what several modules share |

Each protocol has a `State`, an `Event` type, a total `Next` in which an event that is not enabled changes nothing,
and a `Run` over any sequence of events, so a theorem about `Run(Init(..), events)` is a theorem about every
interleaving. One event is one access to one shared line or word. An invariant is proved event by event (`NextInv`)
and over runs (`RunInv`); the main theorems follow from it.

Code that the source writes as loops and updates is written so here: a class holds the shared words, a method
performs its own accesses one by one, and between any two of them everybody else runs. What everybody else does
is a parameter: `others(h)` is any sequence of events but the method's own, and may depend on the accesses `h` the
method has made. A method answers its accesses, and its contract says that what it leaves is exactly those woven
with `others` (`Weave`), so nothing is touched that the method does not own up to. What it answers is said in terms
of what its accesses find (`Found`), which holds under every interference, and once more in full for the case in
which nobody interferes (`Silent`). A deadline is a number of further looks the method is granted, and a method that
gives up has used them all.

## What the proofs assume

- A load or store of a line is one step in one global order; cache flushes and fences are not modelled. In
  StakeClaim.dfy and RecoveryClaim.dfy a store lands some time after its flush, at most the visibility lag.
- `StakeClaim.Asserted` holds the static assertions of src/config.hpp:57-85 and one more fact of the constants, that
  the stake window is not longer than the writer stall. The writer stall is read as the bound from the end of the
  settle or the hold to the last flush. No constant bounds the time from a stake's flush to the question whether it
  was late: it is the duration `judge`, and `StakeExact.SerialExactly` says exactly how long it may be. A run in which
  somebody misses a bound is still a run of the machine; `kept` is false in it and the theorems do not speak of it.
- In RecoveryClaim.dfy the stall from a check of the own id to the last flush it guards is below `TickStall`, for
  withdrawals as for takeovers and for all the stores of a finish behind its one check, and a death is declared no
  earlier than the stall plus the lag after it. No constant bounds the time from the look of a sweep or of a reset to
  its flush: it is the duration `sweep`, and `RecoveryExact.SafeExactly` says exactly how long it may be. A peer's
  own stores to the word land in the order it made them, so a reset finds its own stake while that is on its way.
- Peers are crash-stop. A domain is seized by one authority at a time, which `RecoverySafety.SingleRecoveryWriter`
  establishes. `Tournament` lets a scrub end at any access, with what it had not flushed dropped: the clears of a
  deposed authority are stores behind its check, so with the stall above they have landed before another authority is
  confirmed, and so before that one's scrub and before the slot is readmitted.
- Registry.dfy takes the control lock as exclusive, and a domain's lock until a leave or a transfer hands the domain
  on; a peer locks or deletes one domain from one thread at a time.
- Epochs, generations, the doorbell and the sequence word are unbounded numbers here.

## Model

| member | source | states |
|---|---|---|
| TreeGeometry.RoundUpPow2 | src/core/policy/successor_peterson_layout.hpp:80-88 | the loop returns the least power of two that covers the count, at most double it |
| TreeGeometry.TrailingZerosOfPow2 | src/core/policy/successor_peterson_layout.hpp:143 | the count of trailing zeros of the leaf count is the depth |
| TreeGeometry.ReverseBits | src/core/policy/successor_peterson_layout.hpp:91-100 | the shift loop reverses the low bits |
| TreeGeometry.ReversedInvolution | src/core/policy/successor_peterson_layout.hpp:91-100 | bit reversal undoes itself on its width, so it is a bijection on the leaves |
| TreeGeometry.LeavesDistinct | src/core/policy/successor_peterson_layout.hpp:140-145 | distinct peers start at distinct leaves |
| TreeGeometry.AtInRange | src/core/policy/successor_peterson_layout.hpp:146-153 | after any number of levels a climber stands in the row of that level |
| TreeGeometry.AtRoot | src/core/policy/successor_peterson_layout.hpp:146-153 | every climb ends at the root |
| TreeGeometry.AtIsReversed | src/core/policy/successor_peterson_layout.hpp:140-153 | after any number of levels a climber stands where the remaining low bits of its id, reversed, say |
| TreeGeometry.MergedByLowBits | src/core/policy/successor_peterson_layout.hpp:91-100 | two climbs have merged after a number of levels if and only if the ids agree on the bits that are left, so neighbouring ids meet only at the root |
| TreeGeometry.BuildClimbPath | src/core/policy/successor_peterson_layout.hpp:140-155 | the heap walk builds exactly the path of lines the specification names |
| TreeGeometry.ClimbPathShape | src/core/policy/successor_peterson_layout.hpp:140-155 | a path has depth steps, all in range of the tree, the last at the root |
| TreeGeometry.NodesBelowDiffer | src/core/policy/successor_peterson_layout.hpp:140-155 | below their meeting two climbs share no node, on any pair of levels |
| TreeGeometry.PathsMeetOnce | src/core/policy/successor_peterson_layout.hpp:140-155 | two distinct peers meet at exactly one node in opposite roles, with disjoint nodes below it and identical steps above |
| Tournament.NextInv | src/core/policy/successor_peterson.cpp:52-189 | every access, give-up, crash, scrub step and readmission keeps: prefixes stand, every line that names a peer is one it stands on, at most one winner for each subtree, and the turn of a winner with a rival |
| Tournament.MutualExclusion | src/core/policy/successor_peterson.cpp:52-168 | for any peer count and any run, while one peer is past the root no other peer holds the root inside, releasing or dead |
| Tournament.StandsOnPrefix | src/core/policy/successor_peterson.cpp:140-168 | at every point of every run, a crash included, a peer stands on exactly a leaf-side prefix of its own path |
| Tournament.ScrubSparesOthers | src/core/policy/successor_peterson.cpp:174-189 | a check-then-clear scrub step changes no line but one that names the dead peer, whatever live climbers do in between |
| Tournament.ScrubIsComplete | src/core/policy/successor_peterson.cpp:174-189 | after the root-to-leaf scrub no line of the tree names the dead peer |
| Tournament.NoDeadlock | src/core/policy/successor_peterson.cpp:52-98 | when everybody in the tree waits, some waiter's probe wins |
| Tournament.DeadPeerReturns | src/core/policy/successor_peterson.cpp:174-189 | from anywhere in its climb a peer can die, be scrubbed, even after a scrub that broke off, and be admitted again outside the tree with no line naming it, while nobody else moves |
| Climb.Tree.constructor | src/core/policy/successor_peterson_layout.hpp:119-131 | a formatted tree is the machine's initial state |
| Climb.Tree.LockNode | src/core/policy/successor_peterson.cpp:52-98 | announce, yield, probe: the level is won, or its announcement is retracted and everything below still stands; won exactly when a probe within the budget passes, lost only after one more failed probe than the budget |
| Climb.Tree.Spin | src/core/policy/successor_peterson.cpp:73-88 | the two reads of each probe are separate accesses; the loop ends won, or lost after exactly one more failed probe than the budget |
| Climb.Tree.UnlockNode | src/core/policy/successor_peterson.cpp:100-103 | clears the topmost standing line, and touches no other |
| Climb.Tree.BackOut | src/core/policy/successor_peterson.cpp:152-155 | the levels won are cleared root side first, down to none, and no other line is touched |
| Climb.Tree.Acquire | src/core/policy/successor_peterson.cpp:140-159 | what it leaves is its own accesses woven with everybody else's; it returns past the root, or with none of its lines standing after one failed probe more than the budget at one level; undisturbed it wins exactly when nothing stands opposite to its path, and changes nothing that says anything of another peer |
| Climb.Tree.Release | src/core/policy/successor_peterson.cpp:161-168 | clears the whole path root to leaf in exactly one access a level, leaves the peer outside, and changes nothing of another peer |
| Climb.Tree.CleanupDeadPeer | src/core/policy/successor_peterson.cpp:174-189 | the scrub loop leaves no line naming the dead peer, in its own accesses woven with those of live climbers, and changes nothing else |
| PetersonPolicy.NextInv | src/core/policy/successor_peterson.cpp:212-292 | every step of lock and unlock keeps the pin count, the won flag, the tournament phase and the record in agreement |
| PetersonPolicy.WonMeansPinned | src/core/policy/successor_peterson.cpp:212-292 | outside the climb mutex the won flag says exactly that some thread has a pin, and that the peer is past the root |
| PetersonPolicy.UseIsExclusiveAndRecorded | src/core/policy/successor_peterson.cpp:212-292 | while a thread uses the domain the record names its peer and no thread of another peer uses it |
| PetersonPolicy.NamedHolderIsAtRoot | src/core/algo/ownership_transfer.cpp:158-169 | a named holder is the peer past the root: vacate precedes release and takeover follows the win |
| PetersonPolicy.NoUpdateLost | src/core/algo/ownership_transfer.cpp:86-92 | every change of the record is its successor by one epoch, although writers work from copies read earlier |
| PetersonPolicy.OneRecordWriter | src/core/algo/ownership_transfer.cpp:158-169 | at most one peer is between reading the record and storing its update |
| PetersonLock.CourseAccess | src/core/policy/successor_peterson.cpp:52-98 | what stood opposite to a climber when it started decides every probe of a climb nobody disturbs |
| PetersonLock.Domain.ClimbTree | src/core/policy/successor_peterson.cpp:140-159 | the climb ends at the root, or out of time after one failed probe more than granted with every line taken back |
| PetersonLock.Domain.TakeOver | src/core/algo/ownership_transfer.cpp:86-92 | the win moves the record up one epoch with this peer as its holder, the shadow before the truth |
| PetersonLock.Domain.Lock | src/core/policy/successor_peterson.cpp:212-259 | what it leaves is its own steps woven with those of the other peers; it fails only without the climb mutex or after a deadline found past, with pins and win as they were; undisturbed it arrives if and only if its peer has the win or nothing stands opposite to its path, the record then one epoch up and naming it; beside a sibling's win it takes four steps and leaves tree and record alone |
| PetersonLock.Domain.Unlock | src/core/policy/successor_peterson.cpp:261-292 | the outermost unlock vacates the record one epoch up, leaves the tree and drops the win; beside another guard of the peer it takes three steps and leaves tree and record alone |
| StakeClaim.NextInv | src/core/algo/stake_claim.hpp:116-261 | every look, stake, landing, settle, late hold, withdrawal, release, crash and passage of time keeps the tenures apart |
| StakeClaim.SerialCommits | src/admission/claim.cpp:50-125 | no two spans from a confirming or withdrawing check to the last landing overlap, under steals, late stakes, held withdrawals and check-then-clear releases, in every run that keeps the bounds with the slack the judge gap needs |
| StakeClaim.ConfirmFollowsLandings | src/core/algo/stake_claim.hpp:234-249 | a confirmation finds every earlier holder's writes landed |
| StakeClaim.HolderIsNotDisplaced | src/core/algo/stake_claim.hpp:234-261 | while a holder commits the word carries its nonce or a stake too young to be withdrawn in time, and nobody confirms |
| StakeExact.SerialExactly | src/config.hpp:57-85 | commits are serial over every run that keeps the bounds if and only if judge gap, hold, stall and lag fit into timeout and settle, or the hold is no longer than a settle |
| StakeExact.CommitsOverlap | src/core/algo/stake_claim.hpp:188-201 | for all durations without that slack, a run in which a delayed late judgement lets a thief confirm while the withdrawal of the stolen nonce is on its way |
| StakeExact.TwoHolders | src/core/algo/stake_claim.hpp:188-201 | and where a stall outlasts a settle, two processes hold the lease at once |
| StakeExact.LeaseTolerates | src/config.hpp:57-85 | the configured lease tolerates a gap of up to 99 ms between flush and judgement, and no more |
| StakeProgress.LeaseIsNeverWedged | src/admission/claim.cpp:109-125 | wherever a process stands when it dies, and whatever nonce it leaves, another one gets the lease by a run that keeps every bound |
| Claim.Claim.constructor | src/core/algo/stake_claim.hpp:263-269 | a claim starts idle with nothing watched |
| Claim.Claim.Tick | src/core/algo/stake_claim.hpp:116-130 | a tick is won exactly when the process holds the lease, and then the word carries its nonce; what it leaves is its own accesses woven with everybody else's, and undisturbed it is exactly: wait out the window, confirm a stake that stands, take back a late one, or attempt again |
| Claim.Claim.TryStake | src/core/algo/stake_claim.hpp:175-201 | stakes if and only if its look finds the word free, or the one value that stood its timeout, or a watched value that has stood it now and is read again; undisturbed a stake is a fresh nonce flushed with the settle open, and otherwise the value read is watched and nothing is stored |
| Claim.Claim.JudgeLate | src/core/algo/stake_claim.hpp:195-200 | a stake flushed after its window is held, one inside it settles |
| Claim.Claim.HasStoodTimeout | src/core/algo/stake_claim.hpp:203-231 | true exactly for a watched value that stood unchanged through the timeout, which becomes the one reclaimable value |
| Claim.Claim.EndSettle | src/core/algo/stake_claim.hpp:233-248 | won exactly when the settle has passed and the own nonce is read back; otherwise a new attempt starts at once |
| Claim.Claim.EndHold | src/core/algo/stake_claim.hpp:250-261 | a late stake is never won; it is withdrawn if and only if its hold is over and it still stands, and then a new attempt starts |
| Claim.Claim.TakeBack | src/admission/claim.cpp:50-55 | a late stake is cleared if and only if it is still read |
| Claim.Claim.ReleaseLease | src/admission/claim.cpp:50-55 | the lease line is cleared if and only if it still carries the own nonce, so no other stake is erased |
| Claim.Memory.MakeOwn | src/admission/claim.cpp:35-48 | a nonce no stake ever used, and not the free value |
| Admission.Table.ReserveMemberSlot | src/admission/claim.cpp:129-152 | takes the lowest slot its reads find free, which is free still when it writes it, and fails only when every slot was found taken; every other live peer keeps its slot, and undisturbed nothing else changes |
| Admission.Table.AdjustPeerScanBound | src/admission/claim.cpp:156-180 | the rewritten bound exceeds every slot that is not free, with slots freed between the reads; undisturbed it is the least such bound above the own slot |
| Admission.Table.ClaimPeerSlot | src/admission/claim.cpp:185-204 | a completed commit leaves the joiner alone on its slot and the bound above every taken one, whatever an earlier holder left; undisturbed the slot is the lowest free one and the bound the least |
| Admission.Table.Admissions | src/admission/claim.cpp:129-204 | over any sequence of joins, each woven with departures, deaths and recoveries, joiners dying between reservation and bound included, live peers hold distinct slots at every point and the bound covers every taken one unless a joiner died so since it was last rewritten |
| Admission.RecoveredAsDeparted | src/core/algo/recovery.cpp:76-92 | the recovery of a dead peer leaves the table exactly as its departure would have, one slot free and no other |
| RecoveryClaim.SpanBlocks | src/core/policy/recovery_authority.cpp:84-87 | between a check and the flushes it guards nobody else judges the slot free |
| RecoveryClaim.AloneAtCheck | src/core/policy/recovery_authority.cpp:162-165 | whoever finds its own id settled, as an authority or after a hold has no other peer's check or store outstanding |
| RecoveryClaim.NoSweepAtCheck | src/core/policy/recovery_authority.cpp:188-198 | and no sweep or reset is left that could erase it |
| RecoveryClaim.NextInv | src/core/policy/recovery_authority.cpp:63-198 | every look, stake, tick, check, write, withdrawal, reset of a landed stake or of one on its way, sweep, death, landing and passage of time keeps the guarded spans apart when the bounds are sound |
| RecoveryPatient.NextInv | src/core/policy/recovery_authority.cpp:63-198 | so does every event when a settle outlasts a stall and the lag, with early resets and late sweeps allowed |
| RecoverySafety.SingleRecoveryWriter | src/core/policy/recovery_authority.cpp:63-198 | with safe bounds, from a claim check to the landing of the last store it guards no other peer has a check or store outstanding, whatever is swept and reset meanwhile |
| RecoverySafety.WithdrawalFollowsLastTakeover | src/config.hpp:95-98 | a late stake is withdrawn only after the last takeover of the authority it deposed has landed |
| RecoverySafety.ConfirmFollowsLandings | src/core/policy/recovery_authority.cpp:152-160 | an authority is confirmed only with no store of another outstanding |
| RecoverySafety.ConfirmFollowsSweeps | src/core/policy/recovery_authority.cpp:188-198 | and, where a sweep and two lags fit into a settle, with no sweep outstanding |
| RecoverySafety.TakeoversSeeEachOther | src/core/algo/recovery.cpp:105-130 | two authorities never seize one domain from the same truth reading: the later reading had seen the earlier takeover |
| RecoveryExact.SafeExactly | src/core/policy/recovery_authority.cpp:188-198 | for all declared bounds each of these three promises holds over every run if and only if a sweep and two lags fit into a settle with no late stake reset before its hold is over, or a settle is no shorter than a stall and the lag |
| RecoveryExact.SweepLetsASecondIn | src/core/algo/recovery.cpp:204-208 | for all bounds with a longer sweep and a shorter settle, a run in which the sweep of a dead author's claim erases a confirmed authority's id and a second one settles while the first one's store is on its way |
| RecoveryExact.ResetLetsASecondIn | src/core/algo/recovery.cpp:148-155 | for all bounds with a settle that short, a run in which a late stake reset before its hold is over does the same |
| RecoveryExact.RaceBreaks | src/core/algo/recovery.cpp:105-130 | from there both seize the domain from the same reading |
| RecoveryExact.ConfiguredTolerates | src/config.hpp:57-101 | with the configured constants a sweep has to be flushed within the millisecond of its look |
| RecoveryExact.AuthorityCanTakeOver | src/core/algo/recovery.cpp:187-202 | for all declared bounds, a run in which an authority stakes, settles, reads, checks and its takeover lands |
| RecoveryAuthority.Authority.Claim | src/core/policy/recovery_authority.cpp:152-160 | a won tick is a confirmed authority whose id stands, with no other peer's check or store and no sweep outstanding; what it leaves is its own accesses woven with everybody else's, and undisturbed it is exactly a wait, a confirmation, a withdrawal or an attempt |
| RecoveryAuthority.Authority.TryStake | src/core/policy/recovery_authority.cpp:84-107 | stakes if and only if the slot is empty, its own or a dead authority's on both judgements; never wins at once; undisturbed it flushes one stake with the settle open or changes nothing |
| RecoveryAuthority.Authority.JudgeLate | src/core/algo/stake_claim.hpp:195-200 | a stake flushed after its window is held, one inside it settles |
| RecoveryAuthority.Authority.EndSettle | src/core/algo/stake_claim.hpp:233-248 | confirmed exactly when the settle has passed and the own id is read back |
| RecoveryAuthority.Authority.EndHold | src/core/algo/stake_claim.hpp:250-261 | a late stake is never won; once its hold is over it is withdrawn if it still stands, and a new attempt starts |
| RecoveryAuthority.Authority.Takeover | src/core/algo/recovery.cpp:105-130 | seizes if and only if the claim is found its own after the record was read; what is flushed was computed from a reading that has every other authority's takeover in it |
| RecoveryAuthority.Authority.ResetClaim | src/core/policy/recovery_authority.cpp:167-176 | settling, confirmed or past its hold, landed or on its way, the claim ends idle, and its id is on the way out if and only if the peer found it |
| RecoveryAuthority.Authority.RetractClaimsBy | src/core/policy/recovery_authority.cpp:188-198 | clears the slot if and only if it carries the recovered peer's id, leaves the own claim as it is, and undisturbed changes nothing else |
| Ownership.NextInv | src/core/algo/ownership_transfer.cpp:40-341 | every worker, transfer, belief, seizure and crash step keeps pins counted, transfers fresh, shadows stored first and epochs rising |
| OwnershipSafety.UseIsExclusive | src/core/algo/ownership_transfer.cpp:184-259 | at most one live peer has workers in the use phase and the truth names it |
| OwnershipLeave.LeaveIsATransfer | src/core/algo/lifecycle.cpp:285-311 | every run with leaves that nothing overlaps is, step for step, a run of guarded transfers, so every promise of this table about ownership holds of it |
| OwnershipLeaveRuns.UseIsExclusiveExactly | src/core/algo/lifecycle.cpp:299-307 | with the unlatched hand-off of a leave, use stays exclusive over every run if and only if no own worker pins, and no guarded transfer of the peer is under way, between the leave's pin check and its reset |
| OwnershipLeaveRuns.PinBreaksUse | src/core/algo/peer.cpp:296-300 | a run in which a worker pins inside the leave and uses the domain beside the successor |
| OwnershipLeaveRuns.TransferBreaksUse | src/core/runtime/local_domain_view.cpp:76-81 | a run in which a guarded transfer passes the pin check, and two successors use the domain |
| OwnershipSafety.OnlyNamedWrites | src/core/algo/ownership_transfer.cpp:97-154 | the truth changes only by its live named holder's latched transfer, one epoch up, or by a seizure from a dead holder, nine up |
| OwnershipSafety.HeldUntilUnpinned | src/core/runtime/local_domain_view.cpp:16-64 | while a worker uses the domain no event of anybody changes the truth, until that worker unpins |
| OwnershipSafety.EpochImpliesIdentity | src/core/algo/ownership_transfer.cpp:76-139 | truth epochs strictly increase over a run, so an epoch names one holder |
| OwnershipSafety.InterruptedShadowIsNeverTrue | src/core/algo/recovery.cpp:111-124 | the epoch of a shadow left by a transfer that died before its truth store is no truth's epoch, before or ever after |
| OwnershipSafety.GrantIsAboveBaseline | src/core/algo/ownership_transfer.cpp:40-44 | every new truth is above every live peer's baseline |
| OwnershipSafety.ShadowIsTruth | src/core/algo/ownership_transfer.cpp:76-92 | with no publish in flight the group shadow of a live named peer equals the truth |
| OwnershipSafety.ShadowNeverHidesAGrant | src/core/algo/ownership_transfer.cpp:213-245 | so a grant above the baseline passes the shadow filter and is adopted |
| OwnershipSafety.BeliefConvergesExactly | src/core/algo/ownership_transfer.cpp:40-72 | over any number of workers, the belief is true whenever the passes after an adopt are over and the truth names the peer, if and only if no worker stood between disproving and dropping an older belief |
| OwnershipSafety.StaleDropWins | src/core/algo/ownership_transfer.cpp:196-205 | a worker that does so can drop the belief after the adopt, with no pass left to restore it |
| OwnershipRun.StaleDisproofIsReachable | src/core/algo/ownership_transfer.cpp:336-340 | a run that reaches such a state |
| OwnershipTransfer.Domain.PinOwnership | src/core/runtime/local_domain_view.cpp:16-39 | a pin lands only while no transfer holds the word; not pinned means every one of the tries met the latch |
| OwnershipTransfer.Domain.UnpinOwnership | src/core/runtime/local_domain_view.cpp:41-51 | the word is a count above zero here and falls by one |
| OwnershipTransfer.Domain.TryBeginOwnershipTransfer | src/core/runtime/local_domain_view.cpp:53-59 | the latch is taken exactly when no worker is inside and no transfer is in flight |
| OwnershipTransfer.Domain.EndOwnershipTransfer | src/core/runtime/local_domain_view.cpp:61-64 | the latch opens to a count of zero |
| OwnershipTransfer.Domain.CheckResident | src/core/algo/ownership_transfer.cpp:321-341 | resident if and only if the belief was found set and the truth then named this peer under the pin; a disproved belief is dropped |
| OwnershipTransfer.Domain.PollOnce | src/core/algo/ownership_transfer.cpp:213-245 | arrives if and only if the shadow shows an edge and the truth then names this peer, and an arrival is adopted |
| OwnershipTransfer.Domain.AdoptOwnership | src/core/algo/ownership_transfer.cpp:40-44 | the baseline only rises and the belief is set |
| OwnershipTransfer.Domain.WaitForOwnership | src/core/algo/ownership_transfer.cpp:184-259 | not arriving means it polled as often as its budget; undisturbed it arrives if and only if the truth names this peer and it believes so or a poll finds the grant, adopts exactly that, and drops a belief the truth disproves |
| OwnershipTransfer.Domain.RequestLock | src/core/policy/successor_request.cpp:76-110 | arriving means the truth names this peer and no other live peer uses the domain; not arriving leaves no pin, after all its tries or all its polls; undisturbed it arrives if and only if the latch is open, the truth names this peer, and it believes so or a poll finds the grant |
| OwnershipTransfer.Domain.PublishDomainRecord | src/core/algo/ownership_transfer.cpp:76-82 | shadow first, truth second, with everybody running between the two stores |
| OwnershipTransfer.Domain.TransferOwnershipGuarded | src/core/algo/ownership_transfer.cpp:144-154 | runs exactly when no worker is inside; publishes the new holder if and only if the truth names this peer under the latch; undisturbed that is one epoch up in the new holder's shadow and in the truth, the belief dropped and the latch open again, or nothing at all |
| OwnershipTransfer.Domain.CarryOut | src/core/algo/ownership_transfer.cpp:97-139 | publishes if and only if the truth read under the latch names this peer |
| OwnershipTransfer.Domain.TakeoverFromDead | src/core/algo/recovery.cpp:105-130 | seizes if and only if the named holder is dead and the claim is held, with the epoch jump in the shadow and the truth, and adopts it |
| TurnHandshake.NextInv | daemon/daemon/domain/manager.cpp:437-653 | every access of requesters, daemon and delete keeps: a stamp means a turn, a section is shown in the request word, a drop in progress has nobody inside |
| TurnHandshake.InsideRidesTheTurn | daemon/client/session.cpp:343-388 | a live requester inside a section rides a turn the daemon holds, entered on a stamp or on a grant |
| TurnHandshake.NoReleaseUnderASection | daemon/daemon/domain/manager.cpp:552-581 | the event that releases the region guard finds no live requester inside, in hand-backs, sweeps and deletes |
| TurnHandshake.SectionsAreExclusive | daemon/shared/protocol/shared_area.hpp:247-253 | two local requesters are never inside at once |
| TurnHandshake.GrantOutlivesItsRequester | daemon/daemon/domain/manager.cpp:649-652 | eventual hand-back fails: a run in which a requester times out while being granted leaves LockHeld standing with nobody there |
| TurnHandshake.DaemonAloneKeepsIt | daemon/daemon/domain/manager.cpp:552-567 | a turn whose word says LockHeld with no dead mutex holder is given back by no sequence of daemon steps |
| TurnHandshake.SweepFinishes | daemon/daemon/domain/manager.cpp:464-488 | a sweep that finds no LockHeld, or clears one whose holder died, gives the turn back in at most six accesses |
| TurnHandshake.HandBackExactly | daemon/daemon/domain/manager.cpp:464-581 | some sequence of daemon steps gives the turn back if and only if the word does not say LockHeld or the mutex holder died |
| RequestSlot.Slot.LockForRequest | daemon/shared/protocol/shared_area.hpp:247-253 | the mutex is taken by the first try that finds it free or its holder dead, and not taken only after every try found it held |
| RequestSlot.Slot.ClaimTurn | daemon/client/session.cpp:353-360 | the claim is stored before the stamp is read; entered if and only if that read finds a stamp ahead of the clock |
| RequestSlot.Slot.Ask | daemon/client/session.cpp:362-373 | the claim comes down before the request goes up; with nobody serving no request is made |
| RequestSlot.Slot.AwaitAnswer | daemon/client/session.cpp:375-388 | the first look that finds an answer decides, LockHeld inside and Error leaving; unavailable only after every look found none |
| RequestSlot.Slot.TryLockOnce | daemon/client/session.cpp:319-389 | a guard is returned only with the turn held and no drop in progress, and every other exit leaves nothing behind; the answer is exactly what the accesses find: no mutex within the tries, an unknown name, a valid stamp, nobody serving, or the first answer within the looks; undisturbed it is a guard if and only if the mutex can be had, the name stands and the stamp is valid |
| RequestSlot.Slot.Release | daemon/client/guard.cpp:68-89 | Idle is published before the mutex is released, and the daemon is rung exactly when nobody was queued |
| RequestSlot.Slot.ServeLock | daemon/daemon/domain/manager.cpp:437-462 | grants on LockRequested, reconsiders the turn on Idle, does nothing else; undisturbed the words it leaves are exactly those |
| RequestSlot.Slot.Grant | daemon/daemon/domain/manager.cpp:595-653 | answers LockHeld exactly with a turn held, stamping one just taken, and Error exactly without |
| RequestSlot.Slot.TakeTurn | daemon/daemon/domain/manager.cpp:602-630 | the turn is recorded before it is stamped |
| RequestSlot.Slot.DropTurnIfIdle | daemon/daemon/domain/manager.cpp:585-593 | keeps the turn and its stamp when told to, otherwise leaves no stamp |
| RequestSlot.Slot.DropTurn | daemon/daemon/domain/manager.cpp:552-581 | the stamp is zeroed first; the turn goes back if and only if the word read after that is not LockHeld, and then nobody is inside |
| RequestSlot.Slot.DropExpired | daemon/daemon/domain/manager.cpp:464-488 | an abandoned mutex is freed and its claim taken back before the drop; undisturbed the turn stays exactly if a live requester shows LockHeld |
| RequestSlot.Slot.ReclaimAbandoned | daemon/shared/protocol/shared_area.hpp:276-294 | publishes Idle only over a holder that died, and never touches the turn |
| RequestSlot.Slot.ReturnTurn | daemon/daemon/domain/manager.cpp:243-249 | under the request mutex the turn goes back and its stamp with it |
| RequestSlot.Slot.EndGuard | daemon/client/guard.cpp:68-89 | a guard that goes ends its section, publishes Idle and then frees the mutex, and leaves nothing else changed |
| RequestSlot.Slot.TryLockIfIdle | daemon/shared/protocol/shared_area.hpp:257-272 | the delete keeps the mutex if and only if it could be taken, the word under it is Idle and nobody is queued, and lets it go otherwise |
| TurnHandshake.DeathAbandonsTheMutex | daemon/shared/protocol/shared_area.hpp:276-294 | a requester that dies leaves the word as it stood and its mutex abandoned, for the next requester to take |
| AnswerWait.NeverSleepsPastAnAnswer | daemon/shared/protocol/shared_area.hpp:148-192 | a requester asleep on a published answer still has its bump or its wake coming |
| AnswerWait.AnswerIsSeen | daemon/shared/protocol/shared_area.hpp:148-192 | once an answer is published, a requester without one has it after its next three accesses |
| AnswerWait.PublishedIsSeen | daemon/shared/protocol/shared_area.hpp:148-192 | an answer published at any time, with its bump and its wake, reaches a requester without one |
| Dispatcher.NoLostWakeup | daemon/daemon/serve/handler.cpp:54-122 | in the idle sleep every bit up belongs to a requester that has not bumped the doorbell, or the wake is still to come |
| Dispatcher.TakenBitsAreHandedOrBack | daemon/daemon/serve/handler.cpp:85-98 | when a pass has decided, every bit it took was accepted by a worker or is up again |
| Dispatcher.OneWorkerPerDomain | daemon/daemon/serve/workers.cpp:92-121 | no two workers serve one domain and a served domain is in nobody's slot |
| ServeHandler.PendingIsServed | daemon/daemon/serve/handler.cpp:54-122 | a bit that is up and that nobody holds is served after one undisturbed pass unless the lower bits fill every idle seat, with no wake needed |
| ServeHandler.RungIsServed | daemon/shared/protocol/shared_area.hpp:473-500 | a ring is served so: the bit goes up, the doorbell moves, the dispatcher wakes and the pass hands the bit to an idle worker |
| ServeHandler.LowestFirst | daemon/daemon/serve/handler.cpp:85-98 | a pass hands out as many of its bits as there are idle seats, the lowest first, each into the slot of a worker that was idle, and raises the others again |
| ServeHandler.Handler.Assign | daemon/daemon/serve/workers.cpp:164-209 | accepted if and only if the domain was not in flight and a seat was idle, with the domain in that worker's slot; refused leaves no in-flight claim behind |
| ServeHandler.Handler.TakeBits | daemon/daemon/serve/handler.cpp:62-83 | doorbell, in-flight set, bits, in that order; what is taken is exactly the bits nobody held, and no bit is lost by the drop |
| ServeHandler.Handler.HandOut | daemon/daemon/serve/handler.cpp:85-98 | every bit taken is handed over or raised again |
| ServeHandler.Handler.RunPass | daemon/daemon/serve/handler.cpp:56-121 | the pass sleeps only when nothing was taken or skipped and the doorbell stands, and then every bit up has its knock to come; undisturbed it sleeps if and only if no bit was up, and else hands out the lowest bits nobody holds |
| Registry.NextInv | src/core/algo/peer.cpp:217-386 | every registry change, handle check, participation check, pin, lock, access of a leave, sweep, death and recovery keeps: participation implies an active slot, a slot about to be freed has no participant, no handle under way is newer than its slot, names are unique |
| Handles.StaleHandlesNeverGuard | src/shared.cpp:94-127 | a guard by handle is held only while its slot is active at the handle's incarnation, by a pinned participant with no leave under way, in every run in which no leave of the peer overlaps the way from its participation check to its pin |
| Handles.GuardLastsExactly | src/core/algo/peer.cpp:217-311 | a guard names its domain until it ends, whatever anybody does, if and only if its peer participates, has its pin, and has no leave of the domain past its pin check that will find a successor |
| HandleRuns.GuardOfNothing | src/core/algo/peer.cpp:282-311 | a run in which the peer's own leave falls between check and pin, and it ends up guarding a slot its handle does not name |
| HandleRuns.GuardUndone | src/core/algo/lifecycle.cpp:285-311 | a run in which a leave has found no pins, a whole lock by handle follows, and the leave goes on to hand the guarded domain off and retract |
| Handles.ActiveNamesAreUnique | src/core/algo/lifecycle.cpp:313-331 | no two active slots ever share a name |
| Handles.IncarnationIsIdentity | src/core/algo/lifecycle.cpp:342-349 | a slot active at the same generation was not freed or renamed in between, and generations never fall |
| HandleLock.Region.LockByHandle | src/shared.cpp:121-141 | a guard by handle is given if and only if the handle names the slot's domain before the lock and again under it, the peer participates, and one of the tries finds the lock free; every other exit leaves no pin and no lock behind |
| HandleLock.Region.Unlock | src/core/algo/peer.cpp:436-442 | the end of a guard gives back the pin and the lock |
| HandleLock.Region.LockForDelete | src/core/algo/peer.cpp:349-364 | a delete gets its domain's lock if and only if the peer participates and one of the tries finds the lock free |
| HandleLock.UnlockUndoesLock | src/shared.cpp:121-127 | lock and unlock leave everything as it was but for the record, which goes on naming the peer |
| Lifecycle.Region.FindDataDomainByName | src/core/algo/lifecycle.cpp:127-146 | answers the one active slot of that name with its incarnation, and none exactly when the name is free |
| Lifecycle.Region.FindEmptyDataDomain | src/core/algo/lifecycle.cpp:91-103 | answers the first slot without a domain |
| Lifecycle.Region.HasOtherParticipant | src/core/algo/lifecycle.cpp:106-123 | true exactly when another peer participates |
| Lifecycle.Region.GetSuccessorOnLeave | src/core/algo/lifecycle.cpp:59-71 | answers the first participant after this peer around the ring, and none exactly when there is no other |
| Lifecycle.Region.LeaveDomain | src/core/algo/lifecycle.cpp:285-311 | refuses exactly a peer that does not participate or is the only one; otherwise a held record goes to the first other participant around the ring, the pins are reset, the participation is gone, and nothing else changes |
| Lifecycle.Region.CreateDomainLocked | src/core/algo/lifecycle.cpp:313-368 | refuses exactly a taken name or a full table; otherwise the lowest empty slot gets a fresh incarnation, held and joined by its creator |
| Lifecycle.Region.DeleteDomainLocked | src/core/algo/lifecycle.cpp:370-422 | frees exactly when the record is active, ours or nobody's and nobody else is in, answers ok for one already free, and says which check failed |
| Lifecycle.Region.ReclaimOrphansLocked | src/core/algo/lifecycle.cpp:424-451 | one sweep frees exactly the orphans and their pins, counts them, and leaves everything else as it was |
| Layout.Geometry.constructor | src/core/layout/geometry.cpp:312-352 | the cursor ends at the computed size and every accessor finds its line at its line number |
| Layout.IndexIsInjective | src/core/layout/geometry.hpp:375-416 | two addressed lines with one number are one line |
| Layout.LayoutIsSound | src/core/layout/geometry.hpp:296-307 | for all dimensions and strategies every truth, shadow, member, claim, demand, aggregator, packed, tree and profile line is aligned, inside the area and disjoint from every other |
| Layout.EveryLineIsAddressed | src/core/layout/geometry.cpp:312-352 | every line of the area is some accessor's: reading the sections in order finds which, and its line number is the one it was found at |
| Layout.TruthLeadsItsShadows | src/core/layout/geometry.hpp:375-388 | in a domain's block the truth comes first and the shadows follow in the order of their groups |
| Layout.PackedInsideLine | src/core/policy/successor_request_agg_layout.hpp:67-97 | every peer's wanted-domain bitmap has its place inside the packed line of its group |
| Layout.PackedApart | src/core/policy/successor_request_agg.cpp:75-84 | and no two peers of one group share a byte of it |
| Layout.ShadowOfPeer | src/core/layout/geometry.hpp:281-294 | every peer's group shadow is an addressed line |
| Layout.ClimbIsAddressed | src/core/policy/successor_peterson_layout.hpp:106-168 | every line of every climb lies in the domain's own tree |
| Bitmap.Bits.constructor | common/common/bitmap.hpp:39-46 | a fresh bitmap is the empty set |
| Bitmap.Bits.Set | common/common/bitmap.hpp:69-72 | adds the id |
| Bitmap.Bits.Clear | common/common/bitmap.hpp:73-76 | removes the id |
| Bitmap.Bits.Has | common/common/bitmap.hpp:77-80 | the mask test is membership |
| Bitmap.Bits.IsEmpty | common/common/bitmap.hpp:81-91 | all words zero exactly for the empty set |
| Bitmap.Bits.Intersect | common/common/bitmap.hpp:95-103 | set intersection |
| Bitmap.Bits.UnionWith | common/common/bitmap.hpp:106-113 | set union |
| Bitmap.Bits.DropAll | common/common/bitmap.hpp:117-124 | set difference |
| Bitmap.LowestCleared | common/common/bitmap.hpp:131-134 | a word and its predecessor share every bit but the lowest |
| Bitmap.Bits.PopLowest | common/common/bitmap.hpp:127-139 | removes and answers the least id |
| Bitmap.Bits.Drain | common/common/bitmap.hpp:127-139 | popping until empty answers the whole set in ascending order |
| Bitmap.Bits.Iterate | common/common/bitmap.hpp:143-185 | iterating answers the whole set in ascending order and changes nothing |
| Bitmap.OneAscendingOrder | common/common/bitmap.hpp:127-185 | draining and iterating answer the same sequence |

## Left out

- Sockets, mappings, futex and mutex system calls, observability, configuration files, tools and bindings: input and output.
- RequestAgg: the aggregating policy beyond its layout.
- Order policy: its lock is the same hold, wait and guarded transfer that OwnershipTransfer.dfy states for Request; its ring scan is not modelled.
- Ownership: a leave of the membership as a whole hands its domains to peers that need not participate; only leaves of one domain are among the steps of `OwnershipLeave`.
- Epochs across delete and create: `Ownership` covers one incarnation of a slot; what the slot held before is an arbitrary leftover in the other groups' shadows.
- Shadow epochs after an authority dies between its two stores: the next authority reuses that epoch, and no claim is made about the shadow it left.
- Readmission of a recovered id: modelled in `Tournament`, not in `Ownership`, `Registry` or `RecoveryClaim`.
- getRecoveryTarget: the choice of a target in ring order, and a target that revives while its slot is contended, are not modelled; the resets it leads to are.
- OwnershipTransfer.Domain.RequestLock: raising and dropping the demand bit is not modelled, since it only invites a transfer.
- OwnershipTransfer.Domain.TakeoverFromDead: the claim check is an argument here; `RecoveryAuthority.Authority.Takeover` models it on the claim slot.
- RecoveryAuthority.Authority.ResetClaim: not for a late stake before its hold is over, where `RecoveryExact.ResetLetsASecondIn` shows what is lost.
- PetersonLock: threads of the same peer wait for the climb mutex while one of them locks or unlocks; a lock that finds the mutex taken gives up at once, which stands for its deadline passing.
- Crashes in PetersonPolicy: its runs are crash-free, because recovery stamps an authority that never climbed.
- Eventual hand-back of a cmed turn: not promised, as `TurnHandshake.GrantOutlivesItsRequester` shows; `TurnHandshake.HandBackExactly` says when the daemon can give it back, not that its next wake does.
- Service of every accepted hand-over: a worker offers its seat again without looking at its slot, so a slot can be overwritten; only one worker for each domain is claimed.
- Worker and dispatcher parking flags: they only save a wake, and the doorbell's wake is unconditional.
- Lifecycle.Region methods: run without interference, under the control lock; interleavings are covered by `Registry`.
- acquireLease: the loop that ticks a claim until it is won or its deadline has passed; each tick is modelled.
- HandleLock.Region.LockForDelete: a delete refused because its own peer still has another guard is not modelled, since a peer has one thread for each domain here.
- Claim.Memory.MakeOwn: a nonce is fresh here, where the source draws 64 random bits and trusts them not to repeat.
- Registry: leaving the membership as a whole, the control domain's own record and corrupt records are not modelled.
- Word order of a snapshot over several words: `Dispatcher` takes a snapshot in one step, which holds for the 64 domains of one word.
- Fairness, latency and the accuracy of the failure detector.
- The cohort serializer of src/serializers/shared_session.cpp.
