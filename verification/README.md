# A verified model of Colza's elastic iterations

Colza runs analysis pipelines on a group of providers that grows and shrinks.
A simulation (many ranks, of which rank 0 does the talking) starts an iteration
on every provider of its view of the group, stages blocks of data on them,
executes, and cleans up or aborts. This project models the protocol behind that
and the state it keeps, and proves what the protocol is for: a started view
stays stable while servers try to leave, a start happens everywhere or nowhere,
all ranks make the same collective calls and end with the same view, the
incrementally kept hash and address cache agree with the membership, and the
servers' stores together are one store.

Verify with `dafny verify dfyconfig.toml`.

## Modules

| file | what it holds |
|---|---|
| Words.dfy | 64-bit words with wrap-around, exclusive-or and its algebra |
| Folds.dfy | playing a list of steps, and waiting for several things in turn |
| GroupHash.dfy | the group hash, computed and incrementally updated |
| ProviderSpec.dfy | one provider as a state machine, its handlers split at locks and backend calls; its invariant |
| ProviderRuns.dfy | what holds over whole runs of one provider: counter, leave, stability |
| ProviderRaces.dfy | the counter when clients keep no discipline: exactly when it goes wrong |
| ProviderLeaks.dfy | counts that no name leads to, and exactly when they block leave |
| ProviderCalls.dfy | the calls one backend sees, and the iterations it completes |
| ProviderRequests.dfy | over any run: why a request is refused, what a new pipeline accepts, which backend call each admitted request makes, what becomes of leave requests |
| ProviderWhole.dfy | lifecycle requests run to their end, and what a completed or aborted iteration leaves |
| ProviderImpl.dfy | the provider's fields and methods, each a step of the state machine |
| Elastic.dfy | many providers, joins, departures and announcements on their way; hash, cache keys, the stable view |
| Requests.dfy | start and abort requests as small state machines, interleaved with membership moves |
| FanOuts.dfy | what holds while many requests are handled in any interleaving |
| Attempts.dfy | one attempt on a view: all or nothing, and what its outcome means |
| DistributedStart.dfy | `start` on rank 0: attempts, taking back, reloading the view, retrying |
| Lockstep.dfy | the collective calls of rank 0 and of the other ranks |
| Packing.dfy | the 256-byte address slots |
| Staging.dfy | nested stores against one flat store; routing |
| StagedIteration.dfy | stage requests and cleanup through the providers' guards |
| FanOut.dfy | one answer made of the replies to a distributed execute or cleanup |
| AsyncRequests.dfy | shared handles on pending requests |
| AddressCache.dfy | a provider's MoNA addresses |

Each class method that the program runs in place is proved against a function on
values: `ProviderImpl` against `ProviderSpec.Next`, `DistributedPipelineHandle`
against `AfterAttempt`, `AfterTurn` and the history of attempts that these
determine, the handles on requests against a ledger, the staging methods against
`StageAll`/`CleanupAll`, `PackAddresses` against `Packed`, the collective calls
against `RootOps`/`Follow`. The theorems are about those functions.

Lemmas carry `{:induction false}` throughout: every induction is written out.

## What the proofs turned up

These are facts about the code as it is, each with its exact condition.

- The counter of active pipelines is right at the end of a run, whatever the
  clients do, exactly when as many starts as closings (cleanups, aborts)
  completed on a pipeline that was already active, or already closed
  (`CounterIsRightIff`). An admitted request keeps the counter safe exactly when
  it does not compete with one in flight: a start with a start, or a closing
  request with a closing request (`GuardDecides`). Two overlapping cleanups take
  the counter to 2^64-1 (`ConcurrentCleanupsUnderflow`).
- A block staged while that pipeline is being cleaned up or aborted is admitted
  and reaches the backend out of order; this is the only way to break the
  documented order (`StageDuringAbortBreaksTheOrder`).
- After start(k) and abort(k), start(j) is accepted exactly when k is not 0 and
  (k is 1 or j is at least k). At k = 0 the decrement wraps and the pipeline
  never starts again, so an attempt at start(0) that some providers accepted and
  others refused can never succeed later (`GuardAfterAbort`, `AcceptedAgain`,
  `ZeroIsLost`). For k at least 2 the abort also raises the lower bound for later
  starts.
- Re-creating an active or starting pipeline under its only name, or destroying
  a starting one, leaves a count that no name leads to (`OrphansArise`). Such a
  count is given back if the start fails, or if a cleanup, abort or execute with
  automatic cleanup that is already in flight goes through; otherwise it stays,
  and a provider can still leave exactly when no count is stuck like that
  (`LeaksBlockLeave`).
- The hash check notices one differing member with a nonzero identifier and any
  two; three can cancel (`HashCheckDecides`, `ThreeMembersCanCancel`).
- The ranks stay in step exactly when every failed attempt includes a hash
  mismatch and the group file can be read. Otherwise rank 0 ends (its
  `start` returns without an error, or throws before the broadcast) while the
  others wait for a group size (`CollectivesInStep`).
- A routing function set by the user is replaced by the default whenever the
  view is loaded again (`DistributedPipelineHandle.Start`, `Pick`). Ranks with different
  functions can store one block twice (`DifferentFunctionsDuplicate`).
- A pipeline installed while a membership update is under way can keep outdated
  addresses (`Addresses.Install`).
- `DummyPipeline::abort` keeps what was staged, so the restarted iteration
  refuses the same blocks.
- The value returned by a successful distributed execute or cleanup is the
  uninitialised field of a default result, not a reply (`FanOut.Collect`).
- An address that fills its slot is read joined to whatever the next slot reads
  as; the list survives exactly when that happens to be its own continuation
  (`RoundTripIff`).

## Model

| member | source | states |
|---|---|---|
| GroupHash.ComputeGroupHash | src/SSGUtil.hpp:13-24 | the loop returns a hash of the member set that refers to no order of the members |
| GroupHash.SetHashToggle | src/SSGUtil.hpp:26-28 | one update with a member's identifier gives the hash of the set with that member added if absent, removed if present |
| GroupHash.HashIsParity | src/SSGUtil.hpp:19-22 | each bit of the hash tells whether an odd number of members have that bit in their identifier |
| Words.XorBit | src/SSGUtil.hpp:20-27 | a bit of the exclusive-or is set if and only if it is set in exactly one of the two words |
| GroupHash.XorAllIsSetHash | src/SSGUtil.hpp:19-22 | folding over any duplicate-free listing gives the same hash, so it does not depend on rank order |
| GroupHash.HashOfDifference | src/SSGUtil.hpp:19-27 | for any two member sets the exclusive-or of their hashes is the hash of their symmetric difference |
| GroupHash.HashCheckDecides | src/ProviderImpl.hpp:384-391 | two sets have equal hashes if and only if the differing identifiers cancel; one differing nonzero identifier or two differing members are always noticed |
| GroupHash.ThreeMembersCanCancel | src/ProviderImpl.hpp:384-391 | a concrete wrong view that the check accepts |
| GroupHash.IncrementalHashIsRecomputed | src/ProviderImpl.hpp:662-666 | after any valid trace of joins and leaves the updated hash equals the hash recomputed from the resulting membership |
| GroupHash.DeliveryOrderIsIrrelevant | src/ProviderImpl.hpp:662-666 | two providers that saw the same events in different valid orders agree on membership and hash |
| ProviderSpec.NextKeepsInv | src/ProviderImpl.hpp:378-563 | every step of every handler, at lock and backend-call granularity, keeps the provider invariant: the counter is the number of active pipelines plus starts past their increment, no wakeup is lost, a provider that left has no active pipeline |
| ProviderRuns.RunKeepsInv | src/ProviderImpl.hpp:378-563 | that invariant holds in every reachable state |
| ProviderRuns.OneInFlight | src/DistributedPipelineHandle.cpp:96-115 | the discipline asked of clients: any stage, and a lifecycle request exactly when no handler is at work on that pipeline |
| ProviderRuns.CounterNeverWraps | src/ProviderImpl.hpp:403-419 | a step changes the unsigned counter by the integer change in busy pipelines, so it never wraps |
| ProviderRuns.LeaveGate | src/ProviderImpl.hpp:550-563 | in every reachable state where leave has proceeded, no pipeline is active and no start is past its increment |
| ProviderRuns.SleeperIsWoken | src/ProviderImpl.hpp:553-556 | whenever leave sleeps and the counter is zero, some handler is about to notify, and the woken leave proceeds |
| ProviderRuns.CounterMatchesMap | src/ProviderImpl.hpp:258-263 | the counter equals the count over the map if and only if no active or starting pipeline has lost its name |
| ProviderRuns.StableStep | src/ProviderImpl.hpp:378-563 | a started pipeline is still installed, active at k, on a provider still in the group, after a step if and only if the step is not a closing one |
| ProviderRuns.StableUntilClosed | src/ProviderImpl.hpp:378-563 | over any run of one provider it stays so until the first closing step |
| ProviderRuns.ExhaustedForever | src/ProviderImpl.hpp:398-402 | over any run a pipeline whose iteration wrapped to 2^64-1 never changes again |
| ProviderRaces.ErrorStep | src/ProviderImpl.hpp:403-419 | from any state, with no discipline, the counter's error grows by one exactly when a start completes on an active pipeline, shrinks by one exactly when a closing completes on a closed one |
| ProviderRaces.ReturnKeepsCounter | src/ProviderImpl.hpp:478-482 | a backend's return keeps a right counter right if and only if it is neither |
| ProviderRaces.CounterIsRightIff | src/ProviderImpl.hpp:403-419 | over any run of any clients the counter ends right if and only if as many of the one as of the other happened |
| ProviderRaces.GuardDecides | src/ProviderImpl.hpp:394-402 | an admitted request leaves the counter safe in every harmless continuation if and only if no request in flight on that pipeline competes with it |
| ProviderRaces.ConcurrentCleanupsUnderflow | src/ProviderImpl.hpp:489-518 | from a new provider with one pipeline created and started, two overlapping cleanups are both admitted and take the counter to 2^64-1 |
| ProviderLeaks.OrphansArise | src/ProviderImpl.hpp:323-367 | a step leaves a busy pipeline without a name if and only if it re-creates its only name or, while it is starting, destroys it |
| ProviderLeaks.StuckForever | src/ProviderImpl.hpp:258-263 | a busy pipeline without a name and without a handler that can release it stays so over any run, and the provider never leaves |
| ProviderLeaks.LeaksBlockLeave | src/ProviderImpl.hpp:550-563 | some run lets the provider leave if and only if no pipeline is stuck like that |
| ProviderCalls.BackendCallDiscipline | src/ProviderImpl.hpp:378-548 | over any run from a new provider in which no block is staged during a closing, the calls each backend sees are a prefix of complete blocks (failed start, or start, stages, executions and failed cleanups, closed by one cleanup or abort) |
| ProviderCalls.OneIterationPerBlock | src/ProviderImpl.hpp:424-548 | in such a log every call carries the iteration of the last start before it, and only a start follows a closing call |
| ProviderCalls.StageDuringAbortBreaksTheOrder | src/ProviderImpl.hpp:436-452 | an admitted stage keeps the order if and only if no cleanup or abort of that pipeline is in flight |
| ProviderCalls.CompletedIterationsGrow | src/ProviderImpl.hpp:398-412 | over any run the iterations closed by a successful cleanup never decrease and strictly increase after the first nonzero one |
| ProviderCalls.ResumeKeepsGrowth | src/ProviderImpl.hpp:539-544 | the stored iteration stays at least the last completed one, through the decrement of abort |
| ProviderRequests.RefusalTellsWhy | src/ProviderImpl.hpp:378-402 | each error code is returned if and only if its reason holds and no earlier guard fails; a request is admitted exactly without any reason |
| ProviderRequests.FirstStartIsAdmitted | src/ProviderImpl.hpp:47-51 | for every name and iteration, after a pipeline was created and whatever was then done under other names, its first start is admitted and everything else refused as not active, unless the provider left |
| ProviderRequests.CallsAreRequests | src/ProviderImpl.hpp:407-545 | over any run of any clients and for every pipeline and iteration k: the start, stage, execute and abort calls of its backend with k are as many as the admitted requests of that kind for k; its cleanup calls, as the admitted cleanups and the executes with automatic cleanup that ended well |
| ProviderRequests.HandlersAreRequests | src/ProviderImpl.hpp:456-487 | over any run, the h-th handler serves the h-th admitted lifecycle request, on its pipeline, with its iteration and its automatic-cleanup flag |
| ProviderRequests.NoLeaveIsLost | src/ProviderImpl.hpp:550-563 | over any run, each leave request is asleep, woken, or found the counter at zero; the provider left if and only if one did |
| ProviderWhole.WholeStartEffect | src/ProviderImpl.hpp:392-420 | an accepted start, run to its end through all its steps, activates that pipeline at k and adds one to the counter, or on failure changes nothing but the log |
| ProviderWhole.WholeAbortEffect | src/ProviderImpl.hpp:520-548 | an accepted abort run to its end deactivates the pipeline, decrements iteration and counter, and wakes sleeping leaves |
| ProviderWhole.WholeCleanupEffect | src/ProviderImpl.hpp:489-518 | an accepted cleanup, run to its end: exactly what it changes, with either answer of the backend |
| ProviderWhole.WholeExecuteEffect | src/ProviderImpl.hpp:456-487 | the same of an execute with or without automatic cleanup, which notifies whatever that cleanup answers |
| ProviderWhole.IterationEnds | src/ProviderImpl.hpp:398-514 | a completed iteration k leaves the same pipelines active and the counter where it was; afterwards start(j) is accepted if and only if j is larger than k or k is 0 |
| ProviderWhole.StartThenAbort | src/ProviderImpl.hpp:378-422 | a start, and an abort if it was accepted, leave the same pipelines active, the same counter, and every other pipeline untouched |
| ProviderWhole.GuardAfterAbort | src/ProviderImpl.hpp:398-402 | after start(k) and abort(k), exactly which start(j) is accepted |
| ProviderWhole.AbortLeavesIterationStartable | src/ProviderImpl.hpp:538-544 | after any number of start(k)/abort(k) rounds start(k) is accepted if k >= 1; after rounds at 0 every later start is refused |
| ProviderImpl.ProviderImpl.constructor | src/ProviderImpl.hpp:88-92 | a new provider has no pipelines, counter 0 and the given group hash |
| ProviderImpl.ProviderImpl.Start | src/ProviderImpl.hpp:378-407 | guards in order, error code, increment, the call of the backend's start: the fields move as the state machine does |
| ProviderImpl.ProviderImpl.StartReturned | src/ProviderImpl.hpp:407-419 | the outcome of start on the fields |
| ProviderImpl.ProviderImpl.Stage | src/ProviderImpl.hpp:438-452 | the guards in order with their error codes; if they pass, the backend's stage is called with the iteration, and the state is that of the state machine |
| ProviderImpl.ProviderImpl.Execute | src/ProviderImpl.hpp:464-475 | the same, with the backend's execute |
| ProviderImpl.ProviderImpl.Cleanup | src/ProviderImpl.hpp:496-507 | the same, with the backend's cleanup |
| ProviderImpl.ProviderImpl.Abort | src/ProviderImpl.hpp:527-538 | the same, with the backend's abort |
| ProviderImpl.ProviderImpl.ExecuteReturned | src/ProviderImpl.hpp:475-477 | the backend's cleanup is called next exactly when execute succeeded and it was asked for |
| ProviderImpl.ProviderImpl.CleanupReturned | src/ProviderImpl.hpp:477-515 | the outcome of a cleanup on the fields, and when notify_all follows (after an automatic cleanup always, after an explicit one on success) |
| ProviderImpl.ProviderImpl.AbortReturned | src/ProviderImpl.hpp:538-545 | the outcome of abort on the fields |
| ProviderImpl.ProviderImpl.CreatePipeline | src/ProviderImpl.hpp:258-263 | a new inactive state at iteration 0, whose backend was not called, is installed, replacing any state of that name |
| ProviderImpl.ProviderImpl.DestroyPipeline | src/ProviderImpl.hpp:338-363 | refused if unknown or active; otherwise erased, whatever the backend answers |
| ProviderImpl.ProviderImpl.Leave | src/ProviderImpl.hpp:553-561 | one turn of the wait loop: leaves exactly when the counter is zero |
| ProviderImpl.ProviderImpl.MembershipUpdate | src/ProviderImpl.hpp:662-666 | the hash field is updated with the member's identifier |
| Elastic.StepKeepsInv | src/ProviderImpl.hpp:662-698 | one join (also of an identifier that left before), departure, delivery (in any order that is right per member), address resolution or request keeps every provider's invariant, hash and cache in line with the group |
| Elastic.WhoCanJoin | src/ProviderImpl.hpp:112-116 | any identifier that is not that of a member can join, and no other |
| Elastic.WhatCanArrive | src/ProviderImpl.hpp:662-663 | a member can be told of an event as soon as no earlier event about the same subject is outstanding, in any order otherwise; it resolves the group once |
| Elastic.HashTracksMembership | src/ProviderImpl.hpp:662-666 | over any run of the whole group, each member's hash combined with the announcements it still has to receive is the hash of the current membership |
| Elastic.CacheTracksMembership | src/ProviderImpl.hpp:639-698 | over any run, the cache keys of a member that resolved the group, with the announcements outstanding, are the membership; with none outstanding the keys alone are |
| Elastic.KeysFollowNews | src/ProviderImpl.hpp:639-683 | in every move of the group: a key enters a cache exactly by the news of a join or by resolving the group, and leaves it exactly by the news of a departure |
| Elastic.RefusedForItsHash | src/ProviderImpl.hpp:384-391 | a member that was told everything refuses a view for its hash if and only if the differing identifiers do not cancel |
| Elastic.StableView | src/ProviderImpl.hpp:378-422 | over any run of the group, each provider that accepted start(k) is a member with its pipeline active at k unless it was closed there |
| Elastic.TrackTells | src/ProviderImpl.hpp:378-422 | "accepted" there begins exactly when the backend's start succeeds, and lasts exactly as long as the pipeline is installed and active at k |
| Elastic.StableUntilClosedThere | src/ProviderImpl.hpp:550-563 | from acceptance on, the provider stays a member with the pipeline active at k up to the very move that closes the iteration on it |
| Requests.MoveKeeps | src/ProviderImpl.hpp:550-563 | joins, announcements, resolutions and leaves change no pipeline and no counter and do not raise the retry measure; a delivery lowers it |
| Requests.LocalGoesOn | src/ProviderImpl.hpp:378-422 | each step of a start or abort request keeps its provider where that request alone would have brought it, whatever membership moves came in between |
| Requests.AnyMovesArePlayed | src/DistributedPipelineHandle.cpp:96-115 | whatever run of membership moves the group can make, it can make while requests are outstanding |
| FanOuts.AdvanceKeeps | src/ProviderImpl.hpp:378-548 | so for any number of requests to distinct providers, handled in any interleaving |
| FanOuts.MismatchMeansBehind | src/ProviderImpl.hpp:384-391 | a mismatch under a current view means that an event happened or an announcement was outstanding |
| FanOuts.FanOutEnds | src/DistributedPipelineHandle.cpp:96-115 | when the client has waited for all replies, all requests were handled to their end and nothing is in flight |
| Attempts.AllOrNothing | src/DistributedPipelineHandle.cpp:94-134 | for any number of providers, any replies, any interleaving: a provider that refused keeps its pipelines exactly; one whose backend failed, all but the log; one that started is active at k if all did, and otherwise inactive again with iteration k-1 and its counter back; all others are as they were |
| Attempts.OutcomeMeans | src/DistributedPipelineHandle.cpp:102-115 | the attempt succeeds if and only if every provider, as the request found it, admitted start under the hash sent and its backend succeeded; it is a mismatch if and only if one was found with another hash |
| Attempts.RepliesTell | src/ProviderImpl.hpp:384-421 | the reply is the error code of the guards, that of the backend, or success, according to the provider that the request found |
| Attempts.MismatchIsNews | src/ProviderImpl.hpp:384-391 | a mismatch under a current view means that the retry measure was not yet exhausted |
| Attempts.SuccessIsStable | src/DistributedPipelineHandle.cpp:119 | after success the pipeline is installed and active at k on every provider of the view, all of them members |
| Attempts.AcceptedAgain | src/ProviderImpl.hpp:542 | a member from which start(k) was taken back accepts start(k) again if and only if k is not 0 |
| Attempts.ZeroIsLost | src/ProviderImpl.hpp:398-402 | over any run, once start(0) was taken back no start of that pipeline is accepted |
| Attempts.FailureOnlyTries | src/DistributedPipelineHandle.cpp:120-134 | a failed attempt changes, on any provider, at most the log and iteration of the pipeline of that name |
| DistributedStart.GappedKeeps | src/DistributedPipelineHandle.cpp:135-138 | between two attempts nothing happens to the pipelines, and an announcement that was outstanding arrives unless the measure fell anyway |
| DistributedStart.AnyMovesHappen | src/DistributedPipelineHandle.cpp:135-138 | whatever run of membership moves the group can make, it can make between two attempts |
| DistributedStart.RetryIsLess | src/DistributedPipelineHandle.cpp:74-142 | a mismatch under a freshly loaded view lowers the measure (events left, announcements outstanding) |
| DistributedStart.Cluster.Wait | src/DistributedPipelineHandle.cpp:105 | anything is played before the reply arrives, and the request is driven to its end |
| DistributedStart.DistributedPipelineHandle.SendStarts | src/DistributedPipelineHandle.cpp:96-100 | one start per pipeline of the view is outstanding, with the view's hash |
| DistributedStart.DistributedPipelineHandle.CollectReplies | src/DistributedPipelineHandle.cpp:102-115 | started, ok and mismatch are what the replies say |
| DistributedStart.DistributedPipelineHandle.Ask | src/DistributedPipelineHandle.cpp:94-115 | the group is as the specified fan-out leaves it, and started, ok and mismatch are what its replies say |
| DistributedStart.DistributedPipelineHandle.TakeBack | src/DistributedPipelineHandle.cpp:120-134 | one abort per started pipeline, handled in any interleaving with membership moves, all replies awaited |
| DistributedStart.DistributedPipelineHandle.Attempt | src/DistributedPipelineHandle.cpp:84-139 | the group and the outcome are those of the specified attempt; one flag is broadcast |
| DistributedStart.ViewInOrder | src/Client.cpp:110-131 | a loaded view lists the members in rank order |
| DistributedStart.DistributedPipelineHandle.ShareAddresses | src/Client.cpp:109-144 | place i of the list that is packed and broadcast is the address of the server at place i of the view |
| DistributedStart.DistributedPipelineHandle.Reload | src/Client.cpp:88-168 | a loaded view is the current membership with its hash; the routing function is the default one again; the broadcasts with their byte counts: size and 256 bytes per address in view order, or a size of -1, or none |
| DistributedStart.DistributedPipelineHandle.Pick | src/DistributedPipelineHandle.cpp:170-175 | refused exactly on an empty view; otherwise the pipeline at place h % n of the view, where h is the block id by default and else what the user's function says |
| DistributedStart.DistributedPipelineHandle.TryAgain | src/DistributedPipelineHandle.cpp:74-142 | a retry is the specified attempt with the freshly loaded view |
| DistributedStart.DistributedPipelineHandle.StartLoop | src/DistributedPipelineHandle.cpp:74-142 | terminates; the attempts are the history that old state and surroundings determine, and the collective calls are theirs |
| DistributedStart.DistributedPipelineHandle.Start | src/DistributedPipelineHandle.cpp:58-142 | moreover, on success every pipeline of the final view is active at k; after a retry that view is exactly the membership; otherwise every provider is as before but for log and iteration of that pipeline; it succeeds if and only if no attempt failed without a mismatch |
| DistributedStart.WhatStartLeaves | src/DistributedPipelineHandle.cpp:74-142 | the same over any history of attempts |
| DistributedStart.NextRecord | src/DistributedPipelineHandle.cpp:74-142 | one more attempt extends the record of collective calls as a whole start does |
| DistributedStart.AllRanksShareTheView | src/Client.cpp:109-163 | after a start that was retried and ended well, every other rank holds as many addresses as rank 0's view has servers, and at each place that of rank 0's server |
| DistributedStart.AllRanksRouteAlike | src/DistributedPipelineHandle.cpp:173-175 | so for every routing function and every block, the server that another rank picks has the address of the one that rank 0 picks |
| DistributedStart.StartedViewIsStable | src/DistributedPipelineHandle.cpp:74-142 | after rank 0's start(k) ended well, every provider of its view stays a member, active at k, until the move that closes the iteration there, whatever moves follow |
| Lockstep.CollectivesInStep | src/DistributedPipelineHandle.cpp:62-154 | all ranks issue the same collectives with equal byte counts and end alike if and only if every failed attempt includes a mismatch and the group could be read; otherwise the others wait in one more broadcast |
| Lockstep.AttemptInStep | src/Client.cpp:129-153 | the same for one attempt and all that follow it, with the -1 path on which all ranks throw |
| Lockstep.OneView | src/Client.cpp:109-163 | the other ranks end with the list of addresses that rank 0 loaded last, if these fit their slots |
| Lockstep.MakeOnFollower | src/Client.cpp:146-164 | the calls of makeDistributedPipelineHandle on another rank, and the addresses it reads |
| Lockstep.StartOnFollower | src/DistributedPipelineHandle.cpp:144-154 | the calls, the end and the view of start on another rank are those of the reference reading of rank 0's broadcasts |
| Packing.StrCpy | src/Client.cpp:128 | copies the string and its terminator, stays in bounds, and leaves every other byte |
| Packing.PackAddresses | src/Client.cpp:109-128 | the buffer is what the copies leave, one after the other |
| Packing.UnpackAddresses | src/Client.cpp:155-163 | reads one C string per slot |
| Packing.CopyStaysInSlot | src/Client.cpp:128 | an address of at most 255 bytes disturbs no other slot |
| Packing.UnpackedIsReadBack | src/Client.cpp:109-163 | what each slot reads back as, for all lists that stay in the buffer |
| Packing.RoundTripIff | src/Client.cpp:109-163 | the list is read back as it was packed if and only if every address that fills its slot goes on as the next one |
| Packing.RoundTrip | src/Client.cpp:109-163 | so every list of n NUL-free addresses of at most 255 bytes goes into 256n bytes and is read back in the same order |
| Staging.DummyPipeline.Stage | examples/pipeline/DummyBackend.cpp:48-92 | succeeds exactly when the key is new and the data arrived, and then inserts only that block |
| Staging.DummyPipeline.Cleanup | examples/pipeline/DummyBackend.cpp:39-46 | removes exactly that iteration |
| Staging.DummyPipeline.Abort | examples/pipeline/DummyBackend.cpp:27-29 | changes nothing |
| Staging.Stage | src/DistributedPipelineHandle.cpp:170-185 | refused on an empty view; otherwise only the routed server changes, as its backend does |
| Staging.Cleanup | src/DistributedPipelineHandle.cpp:285-288 | every server of the view drops that iteration |
| Staging.OpRefines | examples/pipeline/DummyBackend.cpp:39-92 | one operation keeps the servers equal to the flat store, and a stage is accepted exactly when the flat store lacks the key |
| Staging.ManyServersRefineOneStore | examples/pipeline/DummyBackend.cpp:39-92 | so does any sequence of stages, cleanups and aborts |
| Staging.OneStore | src/DistributedPipelineHandle.cpp:203-205 | from empty servers: each block is on exactly the server it is routed to, acceptance is newness, cleanup empties the iteration |
| Staging.FirstStageWins | examples/pipeline/DummyBackend.cpp:61-67 | until a cleanup, the store holds under each key the first block that arrived for it, and nothing else |
| Staging.DifferentFunctionsDuplicate | src/DistributedPipelineHandle.cpp:51-56 | a block is accepted a second time if and only if the two ranks' functions route it to different servers |
| Staging.DefaultPlacement | src/DistributedPipelineHandleImpl.hpp:26-28 | by default a new block b, of any dataset and iteration, is accepted and stored by server b % m and by no other |
| Staging.RoutingIsBalanced | src/DistributedPipelineHandleImpl.hpp:26-28 | of blocks 0..n-1 of any dataset and iteration over m servers, server i gets n/m, plus one if i < n % m |
| Staging.CountsAddUp | src/DistributedPipelineHandle.cpp:203-205 | these counts sum to n |
| StagedIteration.StageDuringIteration | src/ProviderImpl.hpp:438-452 | while the view is started at k, a stage succeeds exactly when it is for k, the data arrived and the key is new in the flat store; only the routed provider's backend is called, the view stays started and the servers stay that store |
| StagedIteration.StagesRefine | src/ProviderImpl.hpp:424-454 | so for any sequence of stage requests from any ranks and for any iterations |
| StagedIteration.StagedInIteration | examples/pipeline/DummyBackend.cpp:61-91 | at any point of the iteration each block of k is on exactly the server it is routed to, and is the first that arrived under its key |
| StagedIteration.CleanupEndsIteration | src/ProviderImpl.hpp:489-518 | cleanup(k) on the view removes all blocks of k and no other and touches no provider outside the view; every later stage is refused as not active |
| FanOut.Collect | src/DistributedPipelineHandle.cpp:245-259 | throws if and only if some reply is a failure, with the code of the last failure; otherwise yields the untouched initial value |
| AsyncRequests.AsyncRequest.Copy | src/AsyncRequest.cpp:17 | a copy shares the request and runs no callback |
| AsyncRequests.AsyncRequest.Move | src/AsyncRequest.cpp:19-22 | the new handle takes the request over, the old one is empty |
| AsyncRequests.AsyncRequest.Destroy | src/AsyncRequest.cpp:24-28 | the last handle waits first; the program ends exactly when that callback throws |
| AsyncRequests.AsyncRequest.CopyAssign | src/AsyncRequest.cpp:30-37 | waits if it was the last handle of another request, then shares; aliases and self-assignment do nothing; no other request is touched |
| AsyncRequests.AsyncRequest.MoveAssign | src/AsyncRequest.cpp:39-47 | the same, taking the request over |
| AsyncRequests.AsyncRequest.Wait | src/AsyncRequest.cpp:49-54 | runs the callback exactly once more unless it was run for good; records whether it threw |
| AsyncRequests.OpKeepsLedger | src/AsyncRequest.cpp:14-54 | any operation keeps: a request has a live handle or was waited for, and its callback ran once per throw and once for good |
| AsyncRequests.NotDroppedUnwaited | src/AsyncRequest.cpp:24-28 | so does any sequence of operations; if no callback throws, the program does not end early and none is recorded as thrown |
| AsyncRequests.DroppedRequestFinished | src/AsyncRequest.cpp:24-54 | a request without live handles had its callback run, exactly once if no callback throws |
| AsyncRequests.Program.Step | src/AsyncRequest.cpp:14-54 | one operation takes handles, requests and their records where the ledger says, and ends the program exactly when it says so |
| AsyncRequests.Program.Run | src/AsyncRequest.cpp:14-54 | so does any sequence of operations |
| AddressCache.SortedIsTheOrder | src/ProviderImpl.hpp:253-254 | walking the map gives the one strictly increasing list of its keys |
| AddressCache.RotationGoesUp | src/ProviderImpl.hpp:640-642 | the rotated loop begins with the own rank and goes up, from the last rank on to rank 0 |
| AddressCache.RotationVisitsEachOnce | src/ProviderImpl.hpp:640-642 | the rotated loop visits each rank exactly once |
| AddressCache.Addresses.Resolve | src/ProviderImpl.hpp:639-656 | afterwards the keys are the old ones and the snapshot, with the members' own addresses |
| AddressCache.Addresses.Snapshot | src/ProviderImpl.hpp:685-691 | place i of the list is the address of the i-th of the cache's member identifiers in increasing order |
| AddressCache.Addresses.UpdatePipelines | src/ProviderImpl.hpp:685-697 | every installed pipeline is given such a list of the current cache |
| AddressCache.Addresses.MembershipUpdate | src/ProviderImpl.hpp:670-698 | the keys follow the event exactly as the membership does, and every pipeline then has the members' addresses in increasing order of their identifiers |
| AddressCache.Addresses.Install | src/ProviderImpl.hpp:249-263 | all pipelines are up to date if and only if the addresses did not change since they were read |

## Left out

- Thallium, Margo, Argobots, SSG, MoNA and MPI internals, bulk transfer, endpoints and lookups: requests are steps, membership is a set, a backend call has an oracle result.
- Loading of libraries, JSON configuration, security tokens, logging, sleeps and timing.
- Failed or lost requests and crashed servers: the client has no handling for them, so every addressed provider answers.
- Request wrappers of `PipelineHandle`, `Admin`, the Bedrock module, example programs, and `ComputeDataSize`: only easy members.
- Which execution stream runs a handler: lines 392-406 of src/ProviderImpl.hpp are one step, as on one cooperative stream.
- The window between the duplicate check and the insert of `DummyPipeline::stage` (examples/pipeline/DummyBackend.cpp:68-88), and overlapping threads of `_membershipUpdate`: one step each. The return of a stage call is not recorded, so a stage that is still running in a backend when a cleanup starts is not told apart from one that has ended.
- Waiting internals of the condition variable: `leave` is asleep or awake, and spurious wakeups are not modelled (they would only re-test the counter).
- `ssg_group_leave` and `finalize` inside `leave` are one step that always succeeds; pipelines are not created on a provider that has left.
- Fewer than 2^64 pipeline objects are ever created on one provider.
- `completed()` of a request, which is always true; and what a callback finds when it is run again after it threw (its responses may be consumed).
- The local shared pointer of `execute` and `cleanup` that keeps a request shared until they return.
- The address list handed to a backend is kept per pipeline name, not inside a backend object.
- `group_size*256` overflowing an int, and copies past the end of the buffer (the last address too long), which have no defined result.
- DistributedStart.DistributedPipelineHandle.Start: termination assumes finitely many membership events, that between two attempts an outstanding announcement is delivered (or an event happens), and that no backend answers start with the hash-mismatch code; identifiers and addresses of a view are read in one snapshot; the first attempt is unrolled before the loop.
- Attempts.AllOrNothing: membership moves interleave in any way with the requests of the attempt, but requests for other pipelines, and creations and destructions, do not (they are in `Elastic.StableView` and `DistributedStart.StartedViewIsStable`); a provider is asked at most once per attempt, as each is in a view once.
- ProviderRuns.RunKeepsInv: assumes one lifecycle request in flight per pipeline, stages apart; what happens without that is in ProviderRaces.dfy.
- FanOut.Collect: replies are values already received; which replica threw is not modelled beyond its code.
