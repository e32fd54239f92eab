# Verification of the sentry pool

gvisord keeps pools of warm gVisor sentries. A caller takes a sentry, holds it
under a lease, and gives it back by completing the lease, by letting it expire,
or by shutting the daemon down; a recycler then kills, resets and restores the
sentry, or destroys it and spawns another, while an idle reaper shrinks the pool
behind everyone's back. All of this shares one list of sentries, a condition
variable, a pending counter and a lease table. This project models that protocol
and proves what it keeps, for any number of threads, any interleaving and any
outcome of the runtime calls; and it proves what the configuration code feeds
into it.

`dafny verify dfyconfig.toml` checks the whole project.

## How it is modelled

**The transition system** (`Protocol`). Every goroutine is a program counter. One
step is one region of code under a lock (`leaseMu`, `p.mu` or `s.mu`), one runtime
call, one atomic increment, or one fallible stretch such as the inside of `spawn`.
The scan of `findReadyLocked` is one step per list element, because `s.mu` is taken
per element; `release` and the end of a warm recycle are split between setting
Ready and the later Signal; `cond.Wait` splits its callers into asleep and woken
but not yet run. Runtime calls, spawns, health readings, timed waits, the reaper's
clock and the sleeper that a Signal reaches are nondeterministic. Client calls,
expiries and the one Shutdown arrive at any time. A run is any sequence of steps
and arrivals from the state that a successful `Start` leaves.

A sentry carries the source's `State`, `LeaseID` and `Restores`, and a history that
no step reads: who owns it, how many leases it served, how often it was cleaned up,
and every call that its owners made to the runtime about it, in order, with its
leases and the grace periods that passed.

**The guests** (`Guests`). An automaton that knows nothing of threads says which
sequences of such calls are proper, and what they look like. `Ownership` proves that
the calls on every sentry of every reachable state are such a sequence.

**The invariant** (`Invariant`, `InvariantSteps`, `InvariantRegions`, `Accounting`,
`Wakeup`, `System`, `Safety`). It is proved region by region for the running thread
and the shared state, lifted to every other thread by a frame condition, and joined
with sums over all threads for the counters. The theorems about reachable states
and runs follow in `Ownership`, `Progress`, `Leases`, `Requests`, `Turnaround`,
`Draining` and `Quiescing`. `Witnesses` gives runs for the properties that the code does not have;
`Overshoot`, `AfterClose` and `Expiry` say exactly when it has them, over every step,
run or continuation (`Continuing`).

**The objects** (`Pools`). The classes `Sentry`, `Cond`, `Manager` and `Pool` have the
source's fields, loops and in-place updates. Each method leaves the state that a
function of the old state gives (`Stretches`, `Effects`, `Services`), and for each of
these functions a lemma shows that one thread running alone reaches that state
through regions of the transition system (`Solo`), with the same calls on the
condition variable; `Alone` lifts such a stretch into any reachable state that finds
the thread there. `Sizes` says what one undisturbed recycle or reaper pass does to
the list.

**Around it.** `Locks` interleaves the lock operations of every region one by one and
excludes wait cycles; `Guards` proves that a region which does not hold a lock neither
reads nor writes what it guards. `Spawning` takes spawn apart into its calls and says
what stays on the host when one fails. `Paths` compares the checkpoint allowlist's string test with path
components. `Ids` treats sentry ids and work directories, `Config` validation and the
flattening of templates into workloads.

## Model

| member | source | states |
|---|---|---|
| Safety.ReachableInv | internal/pool/pool.go:113-768 | The joint invariant of ownership, per-owner facts, lease table, counters, refill and wake-up bounds holds in every reachable state of any number of threads |
| InvariantRegions.RegionKeeps | internal/pool/pool.go:415-768 | Every region of code keeps the running thread's view and leaves every sentry in another thread's hands, its place in or out of the list included, as that thread needs it |
| Ownership.NoTwoOwners | internal/pool/pool.go:141-176 | Open or closed, no sentry is at once idle in the list, in some thread's hands, under a lease, cancelled or gone, nor in two threads' hands or under two leases |
| Ownership.OneOwner | internal/pool/pool.go:141-176 | While the pool is open every sentry ever built has exactly one owner among these |
| Ownership.LeasedSentry | internal/pool/pool.go:160-176 | The lease table is injective, and a leased sentry is Running with exactly that lease id, never cleaned up by an owner, and a member while the pool is open |
| Ownership.CleanWhenLeased | internal/pool/pool.go:307-333 | Each lease went to a live sentry whose guest had served nobody since it was made or last reset; the last that any owner did to that guest was the successful restore of the override's checkpoint, if there was an override, and else of the workload's; an override was allowed by the list, and a pre_restore pool admitted none; Shutdown alone may have destroyed the guest under the executor |
| Ownership.CallsAreProper | internal/pool/pool.go:506-703 | In every reachable state the calls made on each sentry are a word of the guest automaton; an idle member's guest has served nobody since its last reset and, in a pre_restore pool, was last restored from the workload's checkpoint; a leased sentry's last event is its lease; a sentry was cleaned up by its owner exactly if its last call is the deletion |
| Guests.LeaseFollowsItsRestore | internal/pool/pool.go:307-333 | In such a word the call right before a lease is the successful restore of the checkpoint it asks for |
| Guests.OverdueIsForced | internal/pool/pool.go:512-525 | Once the grace period has passed the next call is the forced kill, and Wait returns only after lease and TERM, or lease, TERM, the grace period and KILL |
| Guests.BetweenLeases | internal/pool/pool.go:506-565 | Between two leases of a guest there are exactly TERM, its exit (in time, or after the forced kill), a successful reset in warm mode and a successful restore of the workload's checkpoint, before anything else |
| Guests.DeleteIsLast | internal/pool/pool.go:688-692 | A deletion comes right after a kill, and nothing comes after it |
| Requests.LeasedAsAsked | internal/pool/pool.go:300-333 | Over any run the lease that a call registers is for the request it came with, however often it slept and was woken, and the guest was last restored from that request's checkpoint |
| Turnaround.KilledReapedReset | internal/pool/pool.go:506-575 | If two steps of a run lease the same sentry, then warm mode is on and strictly in between one thread sent TERM, saw Wait return and reset the guest successfully, in that order; so in stock mode no sentry serves two leases |
| Turnaround.UsedUntilReset | internal/pool/pool.go:527-535 | A guest that served a lease stays used until a successful reset of that sentry, whatever any thread does |
| Ownership.BoundedReuse | internal/pool/pool.go:527-564 | A sentry serves at most max(1, MaxRestoresPerSentry) leases in warm mode and one in stock mode |
| Ownership.RestoresCountLeases | internal/pool/sentry.go:98-118 | A Ready member was restored exactly once per lease served and is unused or below the limit; a leased sentry is one lease ahead |
| Ownership.CleanedOnce | internal/pool/pool.go:688-703 | An owner cleans a sentry up at most once and Shutdown at most once, Shutdown only after the close; a cleaned sentry is out of the list, the lease table and every thread's hands |
| Ownership.DrainLeaksNothing | internal/pool/pool.go:273-293 | Once the pool is closed and all threads are done, every sentry that spawn returned was cleaned up, whichever path held it at the close |
| Leases.LeaseEnds | internal/pool/pool.go:114-158 | A lease that leaves the table was removed by the step of one Complete, which goes on to recycle its sentry, or by the step of Shutdown that empties the table; the ended count grows and nothing can bring it back |
| Leases.LeaseEndsOnce | internal/pool/pool.go:114-158 | Over any run a lease that was live and is no longer never comes back, however client calls, the expiry and Shutdown race |
| Leases.CompleteFindsExactlyLiveLeases | internal/pool/pool.go:141-158 | A Complete starts a recycle exactly if its lease is in the table at that moment; otherwise it changes nothing |
| Expiry.EndsUnlessCarried | internal/pool/pool.go:160-176 | A Complete, by the expiry timer or anyone, of an issued lease that has not ended yet ends it if and only if no executor still carries it to the table |
| Expiry.EndsIffInserted | internal/pool/pool.go:167-174 | Over any run from the start, such a Complete ends the lease if and only if the insert into the table was an earlier step; otherwise it changes nothing |
| Progress.LeaseAccounting | internal/pool/pool.go:141-176 | Registered leases are live, completed or cancelled; completions are recycles started or about to be; executions are leases registered or about to be; the wait group counts the recyclers |
| Progress.PendingIsQueuedPlusCold | internal/pool/pool.go:428-478 | The pending counter is the queued callers plus the cold-path spawners, and the queued callers alone never exceed the effective maximum |
| Progress.NoLostWakeup | internal/pool/pool.go:466-504 | While a caller sleeps, the Ready members are at most the woken callers that have not run plus the threads between setting Ready and Signal |
| Progress.RefillNeverUnderfills | internal/pool/pool.go:705-727 | While open, members, refills still due, recyclers that have yet to size their refill, failed refills and evictions together never fall below PoolSize, for any overlap of recycles |
| Progress.AtRestMembersAreLeased | internal/pool/pool.go:415-493 | With a caller asleep and all other threads at rest, the members of an open pool are exactly the sentries under a live lease |
| Progress.StuckExactlyWhenEmpty | internal/pool/pool.go:466-478 | With a caller asleep and no thread able to work, no lease is live if and only if the list is empty |
| Progress.SleepersAreServed | internal/pool/pool.go:415-479 | While open and with fewer than PoolSize members lost to failed refills and evictions, a sleeping caller never waits on nothing: some thread can run or some lease is live |
| Progress.ShutdownWaitsForRecyclers | internal/pool/pool.go:277-278 | Shutdown can go on to the close exactly when no thread is between the launch of a recycle and its end |
| Draining.ClosedShape | internal/pool/pool.go:280-286 | A closed pool has an empty list, a free lock, no sleeping caller, no scan under way and no second Shutdown coming |
| Draining.ClosedIsAbsorbing | internal/pool/pool.go:441-472 | No step and no arrival reopens a closed pool, refills its list, puts a caller to sleep or hands out a sentry |
| Draining.DrainStep | internal/pool/pool.go:280-292 | Every step of a closed pool lowers a measure over all thread positions, or changes nothing (an idle reaper tick) |
| Draining.DrainTerminates | internal/pool/pool.go:273-293 | Without new requests every run from a closed state changes the state at most Measure times, whatever the interleaving |
| Draining.DrainEndsIdle | internal/pool/pool.go:273-293 | Where nothing can change any more every thread is done, pending is zero, no recycler is left and every sentry was cleaned up |
| Quiescing.RunsEnd | internal/pool/pool.go:415-768 | Without new calls every run from any reachable state, open or closed, changes the state a bounded number of times, whatever the interleaving: signals, re-sleeping callers, overlapping refills and evictions included |
| Quiescing.ShutdownEndsDrained | internal/pool/pool.go:113-128 | Once Shutdown has begun, a state that no step can change any more is closed, with every thread done and every sentry cleaned up |
| AfterClose.LateLeaseExactly | internal/pool/pool.go:307-333 | From a closed state without leases some continuation registers one if and only if an executor is past acquire and will not be turned away |
| AfterClose.OwnerCleansExactly | internal/pool/pool.go:506-575 | After the close some continuation has a sentry cleaned up by its owner if and only if that has happened, or it is under a lease, or in the hands of a thread that can still discard it |
| AfterClose.ClaimedOwner | internal/pool/pool.go:280-291 | So idle and cancelled sentries of a closed pool are never cleaned up by an owner |
| AfterClose.TwiceExactly | internal/pool/pool.go:280-291 | After the close a sentry can come to be cleaned up twice, by its owner and by Shutdown, if and only if it was a member at the close and its owner can still clean it up, or has |
| Witnesses.StuckSleeper | internal/pool/pool.go:705-715 | A concrete run in which a failed refill leaves a caller asleep with no member, no lease and no thread at work: the condition of SleepersAreServed is needed |
| Overshoot.OvershootsExactly | internal/pool/pool.go:705-711 | Members and spawns under way together pass PoolSize in a step exactly if a refill sizes itself below PoolSize while other spawns are under way, or a cold caller comes on top of PoolSize of them |
| Overshoot.NoOverlapNoOvershoot | internal/pool/pool.go:705-727 | Over any run from the start without such a step the list stays within PoolSize |
| Overshoot.PushesPastExactly | internal/pool/pool.go:430-452 | From any open state the spawns under way, and the scan that holds the lock, can push the list past PoolSize if and only if members, spawns under way and a cold caller holding the lock are together more than PoolSize |
| Overshoot.PendingPassesExactly | internal/pool/pool.go:428-464 | A step takes the pending counter past its limit exactly if a fresh caller's scan ends on an empty list with the counter at the limit |
| Overshoot.PendingWithinLimitExactly | internal/pool/pool.go:428-464 | Over any run from the start pending stays within its limit if and only if no step is of that kind |
| Witnesses.ColdCallersOvershoot | internal/pool/pool.go:430-452 | A concrete run in which two cold callers push pending past the limit and then the list past PoolSize |
| Witnesses.LateLease | internal/pool/pool.go:114-152 | A concrete run in which a lease is registered after Shutdown, and a continuation of it in which the sentry that Shutdown cleaned up is cleaned up again |
| Witnesses.EarlyExpiry | internal/pool/pool.go:167-174 | A concrete run in which the Complete of lease 0 runs while its executor still carries lease 0 to the table and is done without effect; then the executor inserts lease 0, and no thread has a step left |
| Alone.AloneReaches | internal/pool/pool.go:415-768 | Whatever one thread does alone it can do in every reachable state that finds it there |
| Alone.AloneQuietly | internal/pool/pool.go:415-768 | If it signals nobody, or nobody sleeps, the other threads stay where they are |
| Stretches.FirstReady | internal/pool/pool.go:481-493 | The scan's result: the first Ready position from i on, with no Ready member before it |
| Stretches.TurnOutcome | internal/pool/pool.go:415-478 | In a turn a caller gets a sentry exactly if the pool is open and some member is Ready, and then the first one; it goes cold exactly on an empty list and waits exactly if the queue has room; pending counts those who stay, and no other sentry changes |
| Stretches.TurnReaches | internal/pool/pool.go:415-478 | One turn of a fresh or woken caller (closed, first Ready member, cold, capacity, queue) is a path of regions |
| Effects.ColdSpawnReaches | internal/pool/pool.go:430-452 | The on-demand spawn with its three endings is a path of regions |
| Effects.RefilledReaches | internal/pool/pool.go:705-727 | A refill with any pattern of failures, before or after the close, is a path of regions with one Signal per new member |
| Effects.DiscardedReaches | internal/pool/pool.go:531-533 | Remove, clean-up and refill are a path of regions |
| Effects.RecycledReaches | internal/pool/pool.go:506-576 | A recycle with any luck in its runtime calls is a path of regions from the launch to the end of its goroutine |
| Services.ServedOutcome | internal/pool/pool.go:307-333 | An acquired sentry gets a new lease exactly if there is no override, or the pool takes overrides and the allowlist this one, and a needed restore succeeds; the restore is of the override's checkpoint or else of the workload's; otherwise the sentry is Ready again, one caller is woken and the lease table is as before |
| Services.ServedReaches | internal/pool/pool.go:307-333 | Execute after acquire, with its refusals, its on-demand restore and its release on failure, is a path of regions |
| Services.CompletedReaches | internal/pool/pool.go:141-158 | Complete is a path of regions that removes the lease and counts one recycler, or changes nothing |
| Services.PassReaches | internal/pool/pool.go:747-766 | A reaper pass with its clean-ups is a path of regions from one tick to the next |
| Services.StopReaches | internal/pool/pool.go:274-278 | Shutdown closes the stop channel and comes to its wait for the recyclers |
| Services.FinishReaches | internal/pool/pool.go:278-291 | From the end of that wait the close, one Broadcast and the clean-ups are a path of regions |
| Services.ShutDownReaches | internal/pool/pool.go:273-293 | With no recycler to wait for, the whole of it is one path |
| Services.CancelledReaches | internal/pool/pool.go:116-121 | The Manager's lease loop is one region that empties the table |
| Sizes.RefillAddsWins | internal/pool/pool.go:705-727 | A refill of an open pool keeps the list as a prefix, adds one fresh member and one Signal per successful spawn, and counts the failures |
| Sizes.StockRecycleShrinks | internal/pool/pool.go:570-575 | One undisturbed stock recycle sends TERM, and KILL if the guest outlives the grace period, then kills and deletes it, keeps the other members in order and takes the length n to max(n-1, PoolSize) if and only if none of its spawns fails |
| Sizes.WarmRecycleKeepsOrDiscards | internal/pool/pool.go:527-569 | One undisturbed warm recycle leaves the list as it was with the sentry Ready, one restore further, reset and restored from the workload's checkpoint, exactly when reset, limit, health and restore allow it; otherwise the sentry is gone, killed and deleted after the first thing that went wrong |
| Sizes.PassSplits | internal/pool/pool.go:747-761 | A reaper pass takes out exactly the Ready members idle for too long and loses or duplicates none of the others |
| Pools.Sentry.HealthCheck | internal/pool/sentry.go:98-118 | The first failing test in order: restores at the limit, age, memory growth where both readings are positive, open files; it passes exactly if none fails |
| Pools.Pool.FindReadyLocked | internal/pool/pool.go:481-493 | Takes the first Ready member and marks it Running, or finds none and changes nothing |
| Pools.Pool.Acquire | internal/pool/pool.go:415-465 | A fresh caller's turn under the lock: pool closed, the first Ready member, the cold path on an empty list, capacity exhausted or queued, each exactly in its case and with the pending counter to match; the new state is that of Turn |
| Pools.Pool.Reacquire | internal/pool/pool.go:466-478 | A woken caller's turn, from the return of Wait to the next: pool closed, the first Ready member, or waiting on, each exactly in its case, and pending no more unless it waits on |
| Pools.Pool.Spawn | internal/pool/pool.go:578-667 | One more sentry with the next number, live or failed, with Create in warm mode and the restore in stock mode or with pre_restore; earlier sentries untouched |
| Pools.Pool.ColdSpawn | internal/pool/pool.go:430-452 | The cold path: a Running member at the end of the list for its caller, a clean-up if the pool has closed, or an error if the spawn failed, each exactly in its case; the caller is no longer pending |
| Pools.Pool.Remove | internal/pool/pool.go:669-678 | The list without that sentry, the others in order; unchanged if it is not there |
| Pools.Pool.Refill | internal/pool/pool.go:705-727 | The shortfall is computed once, each spawn then adds a member and a Signal, is skipped if it failed, or is cleaned up if the pool has closed: exactly the new state and calls of Refilled |
| Pools.Pool.Recycle | internal/pool/pool.go:506-576 | TERM, and KILL if the guest outlives the grace period, then reset, count, health check, restore, Ready and Signal, or remove, clean-up and refill: the exact calls on the guest and the new state, whatever the luck of the runtime calls |
| Pools.Pool.Release | internal/pool/pool.go:495-504 | Ready without a lease id, then one Signal |
| Pools.Pool.RegisterLease | internal/pool/pool.go:160-176 | The id is on the sentry and the lease in the table; nothing else changes |
| Pools.Pool.Serve | internal/pool/pool.go:307-351 | Execute after acquire: the lease with the checkpoint it reports, or the error of a refused override, a disallowed path or a failed restore, each exactly in its case, with the calls on the guest; a release after an error |
| Pools.Pool.Sift | internal/pool/pool.go:747-759 | The loop of a reaper pass: the evicted and the remaining members, both in list order |
| Pools.Pool.Pass | internal/pool/pool.go:747-761 | The list without the evicted members, which are now the reaper's |
| Pools.Pool.CleanupAll | internal/pool/pool.go:763-766 | Each evicted sentry is cleaned up once |
| Pools.Pool.Shutdown | internal/pool/pool.go:273-293 | With recyclers under way only the stop channel is closed and the call waits; otherwise closed, emptied, everyone woken, every member cleaned up |
| Pools.Pool.FinishShutdown | internal/pool/pool.go:280-291 | What follows the wait: closed, emptied, one Broadcast, every member cleaned up |
| Pools.Pool.Start | internal/pool/pool.go:255-271 | Succeeds exactly if every spawn does, and then leaves an initial state of the transition system |
| Pools.Manager.Complete | internal/pool/pool.go:141-158 | Fails exactly if the lease is not there, and otherwise hands over its sentry and removes it from the table |
| Pools.Manager.CancelLeases | internal/pool/pool.go:116-121 | The table is empty and its sentries orphaned, in whatever order the loop visits them |
| Spawning.Host.Spawn | internal/pool/pool.go:578-667 | The calls of spawn in order: it fails at the first call that fails, succeeds exactly if none does, and leaves on the host exactly what AfterSpawn says |
| Spawning.Host.Cleanup | internal/pool/pool.go:688-703 | cleanup takes away directory, guest, namespace and slice |
| Spawning.CleanupUndoesSpawn | internal/pool/pool.go:688-703 | cleanup after a successful spawn leaves the host as it was |
| Spawning.FailedSpawnLeavesNothingExactly | internal/pool/pool.go:585-664 | A failed spawn leaves the host as it was if and only if it failed neither at preparing the bundle, nor after a network namespace was there, nor at placing the process in its cgroup |
| Spawning.Conservation | internal/pool/pool.go:578-703 | Over any life of a pool everything on the host belongs to a sentry not yet cleaned up or was left by a failed spawn |
| Spawning.NothingStaysExactly | internal/pool/pool.go:680-703 | Once every sentry that spawn returned has been cleaned up, once or twice, nothing is left on the host if and only if no spawn failed at one of those calls |
| Locks.RegionDisciplined | internal/pool/pool.go:415-768 | Every region takes its locks in order, starting and ending with what a thread holds between regions: nothing, or the pool's mutex inside a scan |
| Locks.ReadersDisciplined | internal/pool/pool.go:354-413 | So do Status, Healthy and the look-up of Run |
| Locks.WaitsEnd | internal/pool/pool.go:116-176 | At every point of every run of the transition system with the lock operations of its regions interleaved one by one, a thread that is waited for can go on or waits for one that can |
| Locks.NoWaitCycle | internal/pool/pool.go:481-504 | At every such point the state behind it is a reachable one, and no threads or readers wait for each other's locks in a circle |
| Guards.PoolGuarded | internal/pool/pool.go:415-768 | A region that neither holds nor takes the pool's mutex does the same whatever the list, the pending counter and closed are, leaves them as they were, and makes no call on the condition variable |
| Guards.TableGuarded | internal/pool/pool.go:113-176 | A region that does not take leaseMu does the same whatever the lease table is, and leaves it as it was |
| Guards.FieldsGuarded | internal/pool/pool.go:415-768 | A region that does not take a sentry's mutex does the same whatever that sentry's State, LeaseID and Restores are, and leaves them as they were |
| Guards.ReadersGuarded | internal/pool/pool.go:178-413 | Status and Healthy look at each member under its own mutex inside the pool's, and Status then takes leaseMu for the table |
| Paths.ValidateCheckpointPath | internal/config/config.go:326-344 | The loop permits exactly what the allowlist decision permits, and reports an unresolvable path exactly when there is a list to check it against |
| Paths.AcceptsIsContainment | internal/config/config.go:339-341 | Over clean absolute paths the prefix test is containment of components, except that the root accepts only itself |
| Paths.ListingAdmitsSubtreeUnlessRoot | internal/config/config.go:339-341 | Listing a directory admits exactly its subtree if and only if it is not the root or the path is the root |
| Paths.AllowedByComponents | internal/config/config.go:326-344 | The whole decision in terms of components, for every list and path |
| Paths.AllowlistIsContainmentUnlessRoot | internal/config/config.go:326-344 | A non-empty list decides containment if and only if the root is not listed, the path is the root, or another listed directory contains it |
| Paths.RootListedRefusesItsSubtree | internal/config/config.go:339-341 | A list with the root alone turns away a path right under it |
| Ids.IdsCollideExactly | internal/pool/pool.go:579-580 | Two ids are equal exactly if the counters are and the pool names agree after "/" became "-" |
| Ids.DashesCollide | internal/pool/pool.go:579-580 | Two different pool names whose first ids coincide |
| Ids.WorkDirsCollideExactly | internal/pool/pool.go:581-583 | The same holds of the work directories on disk |
| Ids.PoolIdsDistinct | internal/pool/pool.go:579-583 | Within one pool all ids and work directories are pairwise distinct |
| Ids.IdReads | internal/pool/pool.go:579-580 | An id is the pool's name with its slashes replaced, a dash, and a decimal numeral without leading zeros that reads as the counter |
| Config.EffectiveMaxPending | internal/config/config.go:167-175 | At least 1: the configured value if positive, else twice a positive PoolSize, else 2 |
| Config.EffectiveIsTheQueueLimit | internal/config/config.go:167-175 | It is the limit that acquire would compute from the raw values exactly if one of them is positive |
| Config.HasResourceClass | internal/config/config.go:346-353 | Found if and only if declared |
| Config.Validate | internal/config/config.go:283-321 | Accepts exactly the configurations without any problem, in any order of templates, and reports a problem that is there and that no earlier check would have found first |
| Config.SoundExactly | internal/config/config.go:283-321 | What an accepted configuration is, in full: a runsc path, templates each with rootfs, checkpoint and pools, each pool with a size of at least 1 and a declared class, and in cni mode a plugin directory and a subnet |
| Config.Workloads | internal/config/config.go:368-384 | Every (template, pool) key is there, and every entry is the last word of some template on its key |
| Config.EntriesTakeTheirFields | internal/config/config.go:370-381 | Every entry has the rootfs and checkpoint of one template and the numbers of the last of its pools on that key, with the queue limit as configured or else twice the size |
| Config.LastEntryWins | internal/config/config.go:370-381 | If no two pools overlap, a repeated (template, class) pair takes its last entry, field by field, in any order of templates |
| Config.KeysEqualExactly | internal/config/config.go:372-373 | Two keys are equal exactly if the pairs are, or a slash inside a name of one can be read as the separator of the other |
| Config.KeysAreOneToOne | internal/config/config.go:372-373 | If no two pools overlap in that way, keys are equal exactly if template and class are |
| Config.SlashFreeNeverOverlaps | internal/config/config.go:372-373 | None overlap if template names, or class names, have no slash |
| Config.UniqueExactly | internal/config/config.go:368-384 | The result does not depend on the order of templates if and only if no two pools overlap |
| Config.SlashesCollide | internal/config/config.go:368-384 | An accepted configuration with two different results, by the order in which its templates come up |
| Config.AcceptedConfigsAreUsable | internal/config/config.go:283-321 | An accepted configuration gives every workload PoolSize and MaxPending of at least 1, a declared class, a rootfs and a checkpoint, and the pool's queue limit is the workload's MaxPending |
| Config.AcceptedConfigsHavePools | internal/config/config.go:287-299 | An accepted configuration has at least one workload |

## Left out

- Progress.SleepersAreServed: says that something can still happen, not that a given caller is served; the code promises no order (a newcomer may take a sentry before a woken caller) and no fairness is assumed.
- Ownership.CleanedOnce: allows one clean-up by an owner and one by Shutdown after the close, as the code does (Witnesses.LateLease).
- Pools.Pool.Spawn: the fallible stages of spawn are one outcome here; Spawning takes them apart.
- Spawning.Host.Spawn: a call that fails is taken to leave nothing itself, and the calls that clean up to succeed; the source ignores their errors.
- Pools.Pool.FinishShutdown: starts where recycleWg's wait has returned; the waiting itself is Pools.Pool.Shutdown's result and a step of the transition system.
- Pools.Pool.RegisterLease: takes the lease id as a parameter that was never issued before; the 16 random bytes of the source are fresh only with overwhelming probability.
- Pools.Pool.Recycle: runs without interference; interleavings inside it are in the transition system.
- Turnaround.KilledReapedReset: the signal, the wait and the reset are taken to reach the sentry they name, and Wait to return after the forced kill; what runsc does with them is not part of this model.
- The body of the runsc client, CNI, cgroups, bundle editing, the API server, the commands and the harness: outcomes only, as nondeterministic success or failure.
- Several pools under one Manager: the transition system has one pool, whose leases make up the table; pools share nothing else but `leaseMu`, which Locks covers.
- The goroutine that Complete launches goes on in the slot of the completing thread, and the end of a recycle is one step with its last region.
- The reaper's pass is one step under the pool's lock: during it a member can only become Ready, never leave Ready, so the pass is equivalent to one at its end with a suitable set of idle members. Time enters only as that set.
- A Signal reaches any one sleeper; the runtime's first-in order is not used.
- `filepath.Abs`: its result, or its error, is a parameter, taken as clean absolute components.
- Health readings (age, memory, descriptors) are parameters of Pools.Sentry.HealthCheck, and one nondeterministic outcome in the transition system; the restore count is exact in both.
- Status, Healthy, latency counters, the reported restore number, CleanFilestores, logging, Load and the JSON methods: no property beyond the locks of the first two.
- Run's use of a sentry whose lease expires during the call.
