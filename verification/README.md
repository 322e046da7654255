# ByteTaper, verified

A Dafny model of the parts of ByteTaper whose promises hold over whole runs: the policy commit
protocol of the control plane, the in-flight registry that coalesces requests, the policy update
queue and its workers, the first-level response cache with its cache keys, and the indexes and
codecs beneath them. `dafny verify dfyconfig.toml` checks everything.

## How the model is built

Code that changes state is modelled twice. A function on values says what one critical section
does. A class with the same fields, or a method with the same loop, is proved to compute that
function. The run-level results are then proved about the functions, for every sequence of steps.

| files | what they hold |
|---|---|
| `Text` | substring search as `std::string::find` does it, byte order, decimal numerals, separators |
| `StateKeys`, `PolicyRecords`, `PolicyStateStore` | the key layout, the records, and the atomic operations of the state store |
| `CommitProtocol`, `CommitRuns` | applies, rollbacks and adopts as actors with a program counter; invariants over all interleavings |
| `CommitOutcomes`, `CommitAlone`, `CommitOperations` | what an uninterrupted operation leaves, exactly when it commits, and the operations as methods on the store |
| `InFlightRegistry`, `RegistryRuns`, `RegistryLeaders`, `RegistryWindow` | the registry, its invariant, leader generations and waiter counts, the spacing of leaders |
| `UpdateQueue`, `UpdateRuns`, `UpdateJobs` | the shard scheduler, its invariant, where the jobs are |
| `CacheNamespace`, `L1Cache`, `L1Runs`, `L1Ring` | the ring cache, agreement with a history, eviction order |
| `FieldOrder`, `CacheKey`, `CacheKeyIdentity`, `KeyPieces` | the canonical key, and when two keys are equal, for proper requests and for all |
| `CleanupReach`, `Epochs` | exactly which keys a cleanup reaches, epoch isolation |
| `RouteMatcher` | the compiled matcher against the linear scan |
| `JsonText`, `JsonFields`, `JsonClash`, `JsonReads` | escaping, printing, where the scanner stops and what it then reads |
| `JsonRecords`, `JsonRoundTrips` | the two record codecs and exactly when they are undone |
| `FlatStore`, `FlatOperations` | the flat database as the typed maps of every resource, and the store's operations reading and writing only the flat database |
| `FlatProtocol`, `FlatRequests` | the commit protocol run on the flat database, and which requests keep it within what keys and records can hold |

What the source calls into but does not define here is a parameter: the policy language (load,
emit, identity, hash) is a record of functions with the laws the code relies on, the hash functions
are arbitrary, and each access to the database succeeds or fails as a parameter says. An actor may
stop between any two steps. A failed write changes nothing.

## Where the code does less than its description

Each of these is proved by the members named: an input at which it happens, and the exact condition.

- Generations of the registry are counted per slot. A leader that has been superseded can still
  complete an entry of the same key in another slot whose counter stands at the same number. It
  happens to any two keys of one shard: `RegistryLeaders.LateCompletionCanLand`; exactly when:
  `RegistryLeaders.LateCompletionIff`.
- A waiter that names generation zero can be given another key's response:
  `RegistryLeaders.ZeroGenerationGetsForeignSnapshot`; its own exactly if the slot still holds its
  key: `RegistryLeaders.ZeroGenerationOwnIff`.
- An apply that stopped after storing its version blocks later applies and rollbacks with another
  text until an adopt jumps over that generation: `CommitAlone.OrphanBlocks`,
  `CommitAlone.ApplyBlockedSomewhere`; exactly when an operation commits:
  `CommitAlone.ApplyAloneCommitsIff`, `CommitAlone.RollbackAloneCommitsIff`,
  `CommitAlone.AdoptAloneCommitsIff`.
- Draining puts a shard that a worker holds back on the ready list if it has queued jobs, so two
  workers can execute jobs of one resource at once: `UpdateJobs.DrainingBreaksExclusivity`; exactly
  when exclusivity lasts: `UpdateRuns.ExclusiveIff`.
- Version keys are injective up to 10^15 and collide from there on: `StateKeys.FormatCollides`.
- A policy may be named like another's audit or job section. Its keys are then keys of ids of the other:
  `StateKeys.ParsedNamesCollide`. With slash-free namespaces these are the only collisions:
  `StateKeys.CollidesIff`.
- More than 64 routes of a kind are dropped silently: `RouteMatcher.OverflowDropsRoute`. The answer
  changes exactly for the paths whose first match is dropped: `RouteMatcher.KeptAgreesIff`.
- With more than sixteen selected fields the cache key depends on their order:
  `CacheKeyIdentity.SeventeenFieldsDiffer`. In general it depends on the set of the first sixteen:
  `CacheKeyIdentity.KeysEqualIff`.
- Pipes in a path or query are not escaped, so two requests can have one key:
  `KeyPieces.PipesCollide`. Exactly which: `KeyPieces.KeysEqualIffPieces`. The epochs of a route stay
  apart all the same: `Epochs.HitIsOfSameEpoch`, except that a path without a leading slash can be taken
  for an epoch and a path: `Epochs.EpochInPath`, `Epochs.SameEpoch`.
- A key with an authorization scope is refused by a buffer it would exactly fit, one byte earlier
  than one without: `CacheKey.ScopedKeyRefused`, `CacheKey.ExactFitIff`.
- A cleanup that names a policy identity compares it with another component of the key when the
  marker does not fit its 512-byte buffer, and so leaves the entry: `Epochs.LongMarkerLeavesEntry`,
  `Epochs.DoomedIff`.
- A cleanup also clears keys of other routes that happen to spell its marker:
  `CleanupReach.CleanupReachesOtherRoute`; exactly which: `CleanupReach.DoomedIffSpelled`.
- Control characters other than newline, tab and carriage return do not survive the record codec
  (section 7 of RFC 8259 would decode them): `JsonText.EscapeRoundTripIff`.
- A string that is a key name, or ends in a quote and one, stops the scanner early:
  `JsonClash.FoundAtOwnLineIff`. It then reads the line after that string: `JsonReads.ClashReadsNext`.
  A rollback whose request id is "committedAtUnixEpochMs" leaves a pointer whose commit time reads as the
  previous generation: `JsonRoundTrips.PointerMisread`. The name of the very next field is harmless:
  `JsonRoundTrips.NextNameReads`. Exactly which records read back: `JsonRecords.PointerRoundTripIff`,
  `JsonRecords.VersionRoundTripIff`.

## Model

| member | source | states |
|---|---|---|
| StateKeys.FormatReadsBack | src/control_plane/policy_state_key.cpp:13-17 | below 10^15 the formatted generation field reads back as the generation |
| StateKeys.FormatDropsDigit | src/control_plane/policy_state_key.cpp:13-17 | from 10^15 on a generation and the same without its last digit have one field |
| StateKeys.FormatCollides | src/control_plane/policy_state_key.cpp:13-17 | a generation shares its field with a smaller one if and only if it is at least 10^15 |
| StateKeys.VersionKeyOrder | src/control_plane/policy_state_key.cpp:40-42 | below 10^10 the byte order of version keys is the order of generations |
| StateKeys.FlatKeyInjective | src/control_plane/policy_state_key.cpp:19-54 | for slash-free names, any ids and generations below 10^15, two of the active, version, YAML, audit and job keys of any two resources are equal only if resource and address are |
| StateKeys.OneResourceInjective | src/control_plane/policy_state_key.cpp:36-54 | within one resource, whatever its names and the ids, equal keys are of one address |
| StateKeys.CollidesIff | src/control_plane/policy_state_key.cpp:19-54 | for any policy names and ids, with slash-free namespaces and generations below 10^15, two keys are equal if and only if resource and address are, or one policy's name continues the other's by its audit or job section and the id there is the rest of the key |
| StateKeys.ParsedNamesCollide | src/control_plane/policy_state_key.cpp:36-72 | two resource keys that parse, and keys they share |
| StateKeys.SlashesCollide | src/control_plane/policy_state_key.cpp:19-21 | with a slash in the namespace two resources share all their keys |
| StateKeys.ParseResourceKey | src/control_plane/policy_state_key.cpp:56-72 | the parser cuts at the first slash after the prefix and refuses empty parts |
| StateKeys.ParseInvertsToString | src/control_plane/policy_state_key.cpp:25-27 | parsing a printed resource key gives it back if and only if the namespace is non-empty and slash-free and the name non-empty |
| PolicyStateStore.PolicyStateDb.StorePolicyVersion | src/control_plane/rocksdb_policy_state_store.cpp:124-191 | a version is added once, the same content again is accepted without a write, other content is a conflict, and every failure leaves the store as it was |
| PolicyStateStore.PolicyStateDb.CompareAndPromoteActive | src/control_plane/rocksdb_policy_state_store.cpp:273-345 | the pointer moves only if the current one is the expected one and the target is stored; a pointer already in place is reported as such |
| PolicyStateStore.PolicyStateDb.CommitPolicyGenerationWithAudit | src/control_plane/rocksdb_policy_state_store.cpp:347-544 | version, text, pointer and audit record are written together after all checks, or nothing is |
| PolicyStateStore.LoadReturnsStored | src/control_plane/rocksdb_policy_state_store.cpp:124-239 | after a version write that succeeds, loading that generation gives the text and hash of the write, with the new record or the one found in place |
| PolicyStateStore.LoadReturnsPromoted | src/control_plane/rocksdb_policy_state_store.cpp:241-345 | after a promotion that succeeds, loading the pointer gives its generation and policy id, with the new pointer or the one found in place |
| CommitProtocol.RoundTripIdentity | src/control_plane/policy_apply_transaction.cpp:270-279 | the identity taken from the reparsed document is the identity of the canonical text |
| CommitProtocol.StepKeeps | src/control_plane/policy_apply_transaction.cpp:121-380 | every step of every actor keeps the store sound, only adds versions, and never lowers the pointer |
| CommitProtocol.PrepareOk | src/control_plane/policy_generation_commit.cpp:82-168 | what a commit prepares on a pointer is a well-formed successor of that pointer, also with the hash and generation overridden |
| CommitProtocol.ResolveOk | src/control_plane/policy_generation_commit.cpp:27-44 | the generation an adopt resolves is above the pointer's |
| CommitProtocol.CompareMeansBase | src/control_plane/rocksdb_policy_state_store.cpp:283-318 | a pointer that matches the expected generation and policy id is the very pointer the actor read |
| CommitRuns.RunKeeps | src/control_plane/rocksdb_policy_state_store.cpp:124-345 | the invariant of store and actors holds after every run |
| CommitRuns.ActiveAlwaysConsistent | src/control_plane/policy_apply_transaction.cpp:278-350 | at every moment of every interleaving the active pointer names a stored version and text, its hash is the record's and the text's, and its policy id is the text's identity |
| CommitRuns.VersionsImmutableAndBounded | src/control_plane/rocksdb_policy_state_store.cpp:136-185 | nothing stored is ever changed, and nothing stored is more than one generation ahead of the pointer |
| CommitRuns.PointerNeverReturns | src/control_plane/rocksdb_policy_state_store.cpp:283-345 | the pointer's generation never falls and a pointer once left is never seen again |
| CommitRuns.BaseKept | src/control_plane/policy_generation_commit.cpp:82-135 | over every run an actor keeps the base it read until it finishes, also across the second read of a rollback or adopt |
| CommitRuns.LoadsTheSameLater | src/control_plane/rocksdb_policy_state_store.cpp:193-239 | a version that loads at one moment of a run loads the same at every later one |
| CommitRuns.LoadedIsSound | src/control_plane/rocksdb_policy_state_store.cpp:193-239 | in every run a loaded record carries the hash and identity of the text loaded with it |
| CommitRuns.NoLostUpdate | src/control_plane/policy_apply_transaction.cpp:282-340 | a step that moves the pointer replaces exactly the pointer its actor read, at its first read as at any later moment, records it as previous and raises the generation, by one for apply and rollback |
| CommitRuns.NoAba | src/control_plane/policy_generation_commit.cpp:105-135 | if an actor that had read a pointer by some moment later moves the pointer, it was that very pointer at every moment in between |
| CommitRuns.FailureWritesNothing | src/control_plane/policy_apply_transaction.cpp:94-119 | a step that fails its actor leaves the store as it was |
| CommitRuns.CommitAllOrNothing | src/control_plane/rocksdb_policy_state_store.cpp:347-544 | a commit that reports success has installed the whole request, and one that does not has changed nothing |
| CommitRuns.RollbackRestoresTarget | src/control_plane/policy_rollback_operation.cpp:46-113 | a successful rollback leaves the target's text active byte for byte, one generation above its base |
| CommitRuns.ApplyInstallsCandidate | src/control_plane/policy_apply_transaction.cpp:301-380 | in every interleaving an apply that reports success, promotion found in place included, leaves the canonical text of the candidate it built active one generation above its base, with that text's identity and hash |
| CommitRuns.AdoptInstallsText | src/control_plane/policy_adopt_operation.cpp:245-308 | an adopt that reports success leaves the text it prepared active at the generation it prepared, with its audit record |
| CommitOutcomes.FourStepsIsRun | src/control_plane/policy_apply_transaction.cpp:121-380 | the four steps of an uninterrupted operation are a run of the protocol, so every result over runs holds of them |
| CommitOutcomes.ApplyOutcome | src/control_plane/policy_apply_transaction.cpp:121-380 | an uninterrupted apply moves the pointer from its base to its own text one generation above, or leaves the pointer with at most an orphan there |
| CommitOutcomes.RollbackOutcome | src/control_plane/policy_rollback_operation.cpp:14-114 | an uninterrupted rollback makes the target's text active one generation above with its audit record, or changes nothing |
| CommitOutcomes.AdoptOutcome | src/control_plane/policy_adopt_operation.cpp:214-308 | an uninterrupted adopt makes the fetched text active, at the next generation or at the free one the runtime named, with its audit record, or changes nothing |
| CommitAlone.StoreVersionSucceedsIff | src/control_plane/rocksdb_policy_state_store.cpp:136-185 | on a sound store a version write succeeds if and only if the slot is free or holds the same text |
| CommitAlone.ApplyAloneCommitsIff | src/control_plane/policy_apply_transaction.cpp:121-380 | an undisturbed apply commits if and only if its base is current, its candidate canonicalizes and no orphan with another text holds the next generation |
| CommitAlone.RollbackAloneCommitsIff | src/control_plane/policy_rollback_operation.cpp:14-114 | an undisturbed rollback commits if and only if it names the current pointer, a stored target and a request id, and no orphan with another text holds the next generation |
| CommitAlone.AdoptAloneCommitsIff | src/control_plane/policy_adopt_operation.cpp:214-308 | an undisturbed adopt commits if and only if it names the current generation and a request id, its text resolves and canonicalizes, and it jumps or no orphan with another text holds the next generation |
| CommitAlone.OrphanDecides | src/control_plane/policy_generation_commit.cpp:27-44 | in every run, while an orphan holds the next generation the pointer moves only onto the orphan's own text or over it by an adopt |
| CommitAlone.AbandonedLeavesOrphan | src/control_plane/policy_apply_transaction.cpp:301-350 | an apply that stops between its two writes leaves the pointer and an orphan with its text |
| CommitAlone.OrphanBlocks | src/control_plane/policy_apply_transaction.cpp:301-320 | after that every apply and every rollback with another text fails |
| CommitAlone.ApplyBlockedSomewhere | src/control_plane/policy_apply_transaction.cpp:301-320 | a reachable store on which an apply with a current base and a sound candidate fails |
| CommitOperations.ExecuteApply | src/control_plane/policy_apply_transaction.cpp:121-380 | the method is four protocol steps; on a sound store it commits its own text one above the old pointer and reports that in the job, or fails with the pointer unmoved and at most one orphan one above it |
| CommitOperations.ExecuteRollback | src/control_plane/policy_rollback_operation.cpp:14-114 | the method is four protocol steps; on a sound store it makes the target's text active one above the old pointer, or fails and changes nothing |
| CommitOperations.ExecuteAdopt | src/control_plane/policy_adopt_operation.cpp:214-308 | the method is four protocol steps; on a sound store it makes the fetched text active at the resolved generation, or fails and changes nothing |
| InFlightRegistry.Registry.FindActive | src/coalescing/inflight_registry.cpp:287-294 | the first active slot of the key's shard that holds the key |
| InFlightRegistry.Registry.RegisterRequest | src/coalescing/inflight_registry.cpp:55-151 | leader, follower or rejection by state, age, waiters and cap, and the slot's new life; a missing key is rejected |
| InFlightRegistry.Registry.TakeSlot | src/coalescing/inflight_registry.cpp:130-150 | a new key takes the first inactive or expired terminal slot of its shard, or is rejected |
| InFlightRegistry.Registry.Complete | src/coalescing/inflight_registry.cpp:199-222 | the key's active entry gets the state and the time |
| InFlightRegistry.Registry.CompleteForGeneration | src/coalescing/inflight_registry.cpp:224-251 | the same unless a nonzero generation differs |
| InFlightRegistry.Registry.CompleteResponse | src/coalescing/inflight_registry.cpp:153-197 | the key's active entry gets a snapshot with the content type cut to its buffer; a body over the limit completes it as not cacheable instead |
| InFlightRegistry.Registry.Leave | src/coalescing/inflight_registry.cpp:253-272 | the key's waiter count falls by one, not below zero |
| InFlightRegistry.Registry.StartWait | src/coalescing/inflight_registry.cpp:274-331 | the first section of a wait: an answer at once, or the slot to wait on |
| InFlightRegistry.Registry.FinishWait | src/coalescing/inflight_registry.cpp:333-382 | the second section: the answer from whatever the slot holds by then |
| RegistryRuns.RegisterLeads | src/coalescing/inflight_registry.cpp:69-151 | a grant starts a new life of one slot, for that key, with the generation it returns |
| RegistryRuns.RegisterFollows | src/coalescing/inflight_registry.cpp:69-151 | a follower only raises the waiter count of the entry it joins and a rejection changes nothing |
| RegistryRuns.RunKeeps | src/coalescing/inflight_registry.cpp:55-382 | the invariant of slots, history and waiters holds after every run |
| RegistryRuns.FollowerGetsOwnSnapshot | src/coalescing/inflight_registry.cpp:274-382 | a waiter with a nonzero generation that is given a response gets one published for its own key in that generation of that slot, whatever happened in between |
| RegistryRuns.PromptSnapshotIsOwn | src/coalescing/inflight_registry.cpp:274-331 | the same for an answer given at once |
| RegistryRuns.OneActiveSlotPerKey | src/coalescing/inflight_registry.cpp:69-147 | in every reachable state a key has at most one active slot, in the shard its hash selects |
| RegistryLeaders.LeaderGenerationsIncrease | src/coalescing/inflight_registry.cpp:69-147 | the generations granted for a slot strictly increase over every run |
| RegistryLeaders.LateCompletionIff | src/coalescing/inflight_registry.cpp:224-251 | a superseded leader's checked completion never changes its own slot, and takes effect if and only if the key now lives in another slot with the same number |
| RegistryLeaders.CurrentCompletionLands | src/coalescing/inflight_registry.cpp:224-251 | the latest leader's checked completion sets its entry and no other |
| RegistryLeaders.LateCompletionCanLand | src/coalescing/inflight_registry.cpp:224-251 | under every hash, for any two keys of one shard, a run in which a superseded leader's completion lands on the current entry |
| RegistryLeaders.ZeroGenerationGetsForeignSnapshot | src/coalescing/inflight_registry.cpp:274-382 | under every hash, for any two keys of one shard and any response, a run in which a waiter without a generation is given the other key's response |
| RegistryLeaders.ZeroGenerationOwnIff | src/coalescing/inflight_registry.cpp:274-382 | in every run the response a waiter without a generation is given was published for its own key if and only if the slot still holds that key |
| RegistryLeaders.WaiterCountBounded | src/coalescing/inflight_registry.cpp:253-272 | with one cap an active entry's waiter count exceeds neither the cap nor the outstanding followers of its generation |
| RegistryWindow.LeadersAreSpaced | src/coalescing/inflight_registry.cpp:15-24 | with one window and time that does not run backwards, consecutive leaders of a key are a window apart unless it was completed not cacheable or failed in between, also across slot reclaim |
| UpdateQueue.ReadyAfterContents | src/control_plane/policy_update_queue.cpp:66-86 | after draining begins a shard is on the list if and only if it was before or has jobs |
| UpdateQueue.PolicyUpdateQueue.Submit | src/control_plane/policy_update_queue.cpp:88-158 | a job is appended to its shard, which becomes ready if it was idle, or is refused for a missing id or resource, a stopped or draining or full shard, or a failed record |
| UpdateQueue.PolicyUpdateQueue.TryClaimShard | src/control_plane/policy_update_queue.cpp:174-200 | the first claimable shard leaves the ready list; shards before it are dropped from it |
| UpdateQueue.PolicyUpdateQueue.ReleaseShard | src/control_plane/policy_update_queue.cpp:202-222 | a released shard with jobs goes back on the list and one without becomes idle |
| UpdateQueue.PolicyUpdateQueue.PopJob | src/control_plane/policy_update_worker.cpp:72-80 | the oldest job of the shard, if any |
| UpdateQueue.PolicyUpdateQueue.StartDraining | src/control_plane/policy_update_queue.cpp:66-86 | draining is set and every shard with jobs becomes ready |
| UpdateQueue.PolicyUpdateQueue.WorkShard | src/control_plane/policy_update_worker.cpp:71-132 | a worker left alone takes all jobs of its shard in order and releases it |
| UpdateRuns.RunScheduled | src/control_plane/policy_update_queue.cpp:59-222 | the scheduling invariant holds after every run |
| UpdateRuns.NoShardStranded | src/control_plane/policy_update_queue.cpp:174-222 | in every reachable state, draining included, a shard with jobs is claimable from the ready list or held by a worker |
| UpdateRuns.DrainingIff | src/control_plane/policy_update_queue.cpp:66-86 | the queue drains if and only if draining was begun |
| UpdateRuns.ShardsAreExclusive | src/control_plane/policy_update_queue.cpp:99-149 | as long as draining meets no held shard with queued jobs, and so before it begins, at most one worker holds a shard, no ready shard is held and the ready list has no duplicates |
| UpdateRuns.ExclusiveIff | src/control_plane/policy_update_queue.cpp:66-86 | a run keeps every shard with at most one worker and off the ready list while held, at all its moments, if and only if draining is never begun while a held shard has queued jobs |
| UpdateRuns.DrainExclusiveIff | src/control_plane/policy_update_queue.cpp:66-86 | draining keeps shards exclusive if and only if no held shard has queued jobs |
| UpdateRuns.DrainReadiesHeld | src/control_plane/policy_update_queue.cpp:66-86 | draining puts a held shard on the ready list if and only if it has queued jobs |
| UpdateRuns.UndrainedInterruptsNone | src/control_plane/policy_update_queue.cpp:66-86 | runs before draining meet the condition |
| UpdateJobs.EachJobInOnePlace | src/control_plane/policy_update_worker.cpp:59-134 | in every run each accepted job is exactly once in its shard's deque, one worker's hands or the finished jobs |
| UpdateJobs.EarlierJobFinished | src/control_plane/policy_update_worker.cpp:71-132 | as long as draining meets no held shard with queued jobs, when a job of a shard has been taken up every earlier one has finished |
| UpdateJobs.RunningWasAccepted | src/control_plane/policy_update_queue.cpp:38-41 | a job in a worker's hands was accepted into that worker's shard, the shard of its resource |
| UpdateJobs.ResourceJobsInOrder | src/control_plane/policy_update_worker.cpp:71-132 | under the same condition, while a job of a resource executes every earlier job of that resource has finished |
| UpdateJobs.DrainingBreaksExclusivity | src/control_plane/policy_update_queue.cpp:66-86 | a run with draining in which two workers execute jobs of one resource at once |
| CacheNamespace.KeyIsDoomed | src/cache/l1_cache.cpp:318-346 | the text test of a cleanup: the marker occurs, and the fourth segment after its first occurrence is the policy identity if one is named |
| L1Cache.L1Shard.Find | src/cache/l1_cache.cpp:92-102 | the first live slot with the hash and the key |
| L1Cache.L1Shard.CopyBody | src/cache/l1_cache.cpp:17-33 | the slot's body is the caller's, cut to the limit, and no other slot changes |
| L1Cache.L1Shard.Insert | src/cache/l1_cache.cpp:104-121 | the entry goes to the slot of its key or to the cursor's slot, and only the latter moves the cursor |
| L1Cache.L1Shard.Put | src/cache/l1_cache.cpp:83-121 | the shard after storing an admissible entry |
| L1Cache.L1Shard.PutIfNewer | src/cache/l1_cache.cpp:140-186 | the shard and the answer: refused if and only if a stored entry of the key is newer |
| L1Cache.L1Shard.Get | src/cache/l1_cache.cpp:196-241 | the first live unexpired entry of the key, with its body cut to the buffer |
| L1Cache.L1Shard.Remove | src/cache/l1_cache.cpp:258-291 | the key's first live slot is cleared and reported |
| L1Cache.L1Shard.Clean | src/cache/l1_cache.cpp:310-351 | exactly the live slots with a doomed key are cleared, and the count is the drop in live slots |
| L1Cache.Cache.constructor | src/cache/l1_cache.cpp:54-66 | 256 empty shards |
| L1Cache.Cache.Put | src/cache/l1_cache.cpp:68-122 | only the shard the hash selects changes; an oversized or missing body changes nothing |
| L1Cache.Cache.PutIfNewer | src/cache/l1_cache.cpp:124-187 | the same for a promotion |
| L1Cache.Cache.Get | src/cache/l1_cache.cpp:189-242 | the lookup in the shard the hash selects; a missing key is a miss |
| L1Cache.Cache.Remove | src/cache/l1_cache.cpp:244-292 | only the shard the hash selects changes; a missing key is an invalid argument |
| L1Cache.Cache.CleanupRouteNamespace | src/cache/l1_cache.cpp:298-354 | every shard is cleaned of the route's old epoch, and the removed count is the drop in live slots of the whole cache |
| L1Runs.StepKeeps | src/cache/l1_cache.cpp:68-354 | every operation keeps live keys distinct and filed under their own hash in their own shard |
| L1Runs.LiveKeysDistinct | src/cache/l1_cache.cpp:68-187 | in every reachable state two live slots never hold one key, and each stands in the shard its hash selects |
| L1Runs.LiveIsRecorded | src/cache/l1_cache.cpp:68-292 | in every reachable state a live slot holds the entry admitted last for its key and not removed since |
| L1Runs.GetIsLast | src/cache/l1_cache.cpp:189-242 | after every run a lookup gives exactly the entry admitted last for the key, cut to the buffer, if its slot is still there and unexpired, and otherwise a miss |
| L1Runs.PromotionNeverAges | src/cache/l1_cache.cpp:149-164 | a promotion never replaces a stored entry by an older one |
| L1Ring.CursorCountsFresh | src/cache/l1_cache.cpp:104-121 | a shard's cursor moves by one for each fresh key and never for an overwrite |
| L1Ring.SurvivesFifteen | src/cache/l1_cache.cpp:89-121 | a freshly admitted key that is not removed survives any operations with at most fifteen fresh admissions to its shard |
| L1Ring.SixteenthEvicts | src/cache/l1_cache.cpp:146-186 | the sixteenth fresh admission takes its slot and the key is gone |
| FieldOrder.SelectionSort | src/cache/cache_key.cpp:55-68 | the array is sorted in place and holds the same fields as often |
| FieldOrder.SkipRepetitions | src/cache/cache_key.cpp:70-78 | strictly ascending, with the same elements |
| FieldOrder.CanonicalFields | src/cache/cache_key.cpp:46-78 | copy, sort and deduplication give the canonical list, which is defined by insertion instead |
| FieldOrder.CanonicalIsOfTheSet | src/cache/cache_key.cpp:46-78 | two lists have one canonical list if and only if they have the same elements |
| FieldOrder.AscendingUnique | src/cache/cache_key.cpp:55-78 | an ascending list is determined by its elements |
| CacheKey.KeyWriter.Append | src/cache/cache_key.cpp:13-21 | the text is appended if and only if it fits |
| CacheKey.KeyWriter.WriteVary | src/cache/cache_key.cpp:151-175 | the vary list is written if and only if every part has a name and a value and it fits |
| CacheKey.KeyWriter.WriteScope | src/cache/cache_key.cpp:177-188 | a private key needs a non-empty scope and one byte to spare |
| CacheKey.BuildCacheKey | src/cache/cache_key.cpp:35-192 | succeeds if and only if method, route, path, vary parts, scope and size allow it, and then leaves the terminated key text in the buffer |
| CacheKey.ExactFitIff | src/cache/cache_key.cpp:177-192 | of the requests that can be keyed exactly the private ones are refused by a buffer their key and its terminator would just fill |
| CacheKey.ScopedKeyRefused | src/cache/cache_key.cpp:177-188 | a private request refused by such a buffer and accepted by one byte more |
| CacheKeyIdentity.RenderInjective | src/cache/cache_key.cpp:83-188 | for the contents of such requests the key text determines every component |
| CacheKeyIdentity.KeysEqualIff | src/cache/cache_key.cpp:35-192 | for requests with pipe-free components, a path with a leading slash, comma-free non-empty field names and well-formed vary parts, two built keys are equal if and only if variant, route, epoch, path, query, the set of the first sixteen fields, policy version, vary list and scope agree |
| CacheKeyIdentity.SeventeenFieldsDiffer | src/cache/cache_key.cpp:46-53 | two requests with the same seventeen fields in another order have different keys |
| KeyPieces.RenderEqualIff | src/cache/cache_key.cpp:83-188 | whatever the components hold, two key texts are equal if and only if the components have the same pieces between pipes |
| KeyPieces.KeysEqualIffPieces | src/cache/cache_key.cpp:35-192 | the same for the built keys of all requests |
| KeyPieces.PipesCollide | src/cache/cache_key.cpp:114-129 | two different requests, one with a pipe in its path, with one key |
| Epochs.HitIsOfSameEpoch | src/cache/l1_cache.cpp:189-242 | for all requests, pipes or not: after every run a hit is an entry stored under a key which, if it was built for a request of this route with an epoch, was built for this epoch, and if paths have a leading slash also not for a request without one |
| Epochs.SameEpoch | src/cache/cache_key.cpp:83-120 | two equal keys of one route have one epoch, or one has none and a path whose first piece spells the other's |
| Epochs.HitIsOfSameRequest | src/cache/l1_cache.cpp:189-242 | for proper requests, as in CacheKeyIdentity.KeysEqualIff, a hit is an entry stored under a key built for a request that agrees in everything |
| Epochs.EpochInPath | src/cache/cache_key.cpp:102-120 | every key with an epoch is also the key of a request without one whose path spells it |
| Epochs.MarkerStands | src/cache/l1_cache.cpp:304-322 | the marker of a key's own route and epoch, whole or cut, first occurs at the key's first pipe, whatever the key holds |
| Epochs.DoomedIff | src/cache/l1_cache.cpp:318-346 | a cleanup clears a key of its route and epoch, whatever it holds, if and only if it names no identity or the fourth piece behind the marker is that identity |
| Epochs.ComparedIff | src/cache/l1_cache.cpp:324-346 | without pipes in the components before it, that piece is the policy version, or the query or field list if the marker is cut in the route or in the epoch |
| Epochs.CleanupClears | src/cache/l1_cache.cpp:298-354 | after a cleanup that names no identity no entry built for its route and epoch is left in the shard, pipes or not; after one that names an identity none built for that policy version either, if its marker fits and path, query, field list and policy version hold no pipe |
| Epochs.CleanupMisses | src/cache/l1_cache.cpp:189-354 | after such a cleanup of the whole cache every lookup for such a request is a miss |
| Epochs.LongMarkerKeeps | src/cache/l1_cache.cpp:304-306 | with a marker longer than its buffer a named policy's entry without those pipes stays unless its query or field list is that name |
| Epochs.LongMarkerLeavesEntry | src/cache/l1_cache.cpp:304-346 | an entry of a key that can be built survives the cleanup of its own route, epoch and policy |
| CleanupReach.DoomedIffSpelled | src/cache/l1_cache.cpp:298-346 | a cleanup, its marker whole or cut, clears a key, whatever both hold, if and only if the pieces of the marker's components stand in order among those of the key's, the last as a prefix, and the third piece behind the first such place is the identity if one is named |
| CleanupReach.DoomedIffCleared | src/cache/l1_cache.cpp:298-346 | the same for every key text, route, epoch and identity, by the pieces between pipes |
| CleanupReach.AfterIsRemaining | src/cache/l1_cache.cpp:318-322 | what follows the first occurrence of a marker is what is left of the pieces from the first place that spells it |
| CleanupReach.PolicyIsFourth | src/cache/l1_cache.cpp:324-346 | counting three pipes and cutting at the next compares the fourth piece |
| CleanupReach.CleanupReachesOtherRoute | src/cache/l1_cache.cpp:318-322 | a cleanup of one route and epoch that clears a key of another |
| RouteMatcher.MatchRouteByPath | include/policy/route_matcher.h:223-250 | the first policy of the list that matches the path |
| RouteMatcher.CompiledRouteMatcher.Compile | include/policy/route_matcher.h:59-143 | the matcher represents the policies that fit, under the forced or chosen strategy |
| RouteMatcher.CompiledRouteMatcher.SplitRoutes | include/policy/route_matcher.h:65-87 | the exact and the prefix routes in order, up to 64 of each |
| RouteMatcher.CompiledRouteMatcher.BuildTable | include/policy/route_matcher.h:94-113 | the table holds exactly the exact routes, each reachable from its hash past earlier routes only |
| RouteMatcher.CompiledRouteMatcher.MatchRoute | include/policy/route_matcher.h:145-207 | under every strategy the same answer as the linear scan over the kept policies, and over all of them if there are at most 64 |
| RouteMatcher.ProbeEnds | include/policy/route_matcher.h:94-113 | a table with fewer routes than slots has a free slot on every probe path |
| RouteMatcher.ProbeFindsFirst | include/policy/route_matcher.h:145-207 | the route probing meets first is the earliest with that text |
| RouteMatcher.EarlierIsFirst | include/policy/route_matcher.h:145-207 | the earlier of the first exact and the first prefix match is the first match of the kept list |
| RouteMatcher.SmallListsKept | include/policy/route_matcher.h:65-87 | a list of at most 64 policies is kept whole |
| RouteMatcher.KeptAgreesIff | include/policy/route_matcher.h:65-87 | dropping the overflow changes the answer for a path if and only if the path's first match is dropped |
| RouteMatcher.OverflowDropsRoute | include/policy/route_matcher.h:65-87 | 65 prefix routes and a path that only the last one matches, which goes unmatched |
| JsonText.EscapeJsonString | src/control_plane/policy_state_record.cpp:13-36 | the escaped text, character by character |
| JsonText.GetJsonStringField | src/control_plane/policy_state_record.cpp:38-83 | the decoded string after the first quoted occurrence of the key, empty when a part is missing |
| JsonText.GetJsonUint64Field | src/control_plane/policy_state_record.cpp:85-111 | the digits after the first quoted occurrence of the key, zero when there are none, out of range from 2^64 on |
| JsonText.EscapeRoundTripIff | src/control_plane/policy_state_record.cpp:13-83 | an escaped string decodes to itself if and only if it has no control character but newline, tab and carriage return |
| JsonFields.PrintRecord | src/control_plane/policy_state_record.cpp:208-229 | one line per field between braces, with commas after all but the last |
| JsonClash.SourceColon | src/control_plane/policy_state_record.cpp:38-49 | the colon the scanner takes for a field of a printed record is that of its source line: the line after the first earlier string that is its key or ends in a quote and its key, or its own |
| JsonReads.StringRead | src/control_plane/policy_state_record.cpp:38-83 | a string field reads as its source line: the string there as far as escaping can be undone, or the key after a number |
| JsonReads.NumberRead | src/control_plane/policy_state_record.cpp:85-111 | a number field reads as its source line: the number there, or the leading digits of a string behind spaces |
| JsonReads.ClashReadsNext | src/control_plane/policy_state_record.cpp:38-111 | after a first clash on a line a field is read from the next line, for every list of fields |
| JsonClash.FoundAtOwnLineIff | src/control_plane/policy_state_record.cpp:38-49 | the scanner finds a field at its own line if and only if no earlier string is its key or ends in a quote and its key |
| JsonRecords.SerializeActivePointer | src/control_plane/policy_state_record.cpp:208-229 | the sixteen fields of the pointer in their order |
| JsonRecords.DeserializeActivePointer | src/control_plane/policy_state_record.cpp:231-260 | the pointer the scanner reads, refused without record type, generation or policy id |
| JsonRecords.SerializeVersionRecord | src/control_plane/policy_state_record.cpp:262-281 | the fifteen fields of the version record in their order |
| JsonRecords.DeserializeVersionRecord | src/control_plane/policy_state_record.cpp:283-311 | the record the scanner reads, refused without record type, generation or policy id |
| JsonRecords.PointerRoundTripIff | src/control_plane/policy_state_record.cpp:208-260 | deserializing a serialized pointer gives the same pointer if and only if record type and policy id are non-empty, the generation is not zero and the source line of every field yields its value, the narrow numbers cut to 32 bits |
| JsonRecords.VersionRoundTripIff | src/control_plane/policy_state_record.cpp:262-311 | the same for a version record |
| JsonRoundTrips.PointerRoundTrip | src/control_plane/policy_state_record.cpp:208-260 | in particular if its strings are printable and none is a key printed after the next line or ends in a quote and such a key |
| JsonRoundTrips.VersionRoundTrip | src/control_plane/policy_state_record.cpp:262-311 | the same for a version record |
| JsonRoundTrips.CommitTimeMisread | src/control_plane/policy_state_record.cpp:208-260 | a pointer whose apply id is the name of the commit time has its previous generation read as commit time |
| JsonRoundTrips.PointerMisread | src/control_plane/policy_state_record.cpp:208-260 | a pointer that does not read back, by its apply id alone |
| JsonRoundTrips.NextNameReads | src/control_plane/policy_state_record.cpp:208-260 | the same pointer reads back when its apply id is the name of the very next field |
| FlatStore.PutAtOnePlace | src/control_plane/policy_state_key.cpp:36-54 | a put changes the place it names and no other, of this resource or another with slash-free names |
| FlatStore.FlatRunRefines | src/control_plane/rocksdb_policy_state_store.cpp:124-544 | over every run of accepted and refused batches each read of the flat store is the read of the typed maps |
| FlatStore.OthersKept | src/control_plane/rocksdb_policy_state_store.cpp:347-544 | a batch for one resource leaves every other resource's store as it was |
| FlatOperations.LoadsOnFlat | src/control_plane/rocksdb_policy_state_store.cpp:193-271 | loading version and pointer by key lookup and parsing gives what the typed maps give |
| FlatOperations.TargetAgrees | src/control_plane/rocksdb_policy_state_store.cpp:318-329 | the lookup of a promotion's target key finds a value if and only if that generation is stored |
| FlatOperations.StoreVersionOnFlat | src/control_plane/rocksdb_policy_state_store.cpp:124-191 | storing a version by lookups and puts on the flat database has the result of the typed operation and leaves its store |
| FlatOperations.PromoteOnFlat | src/control_plane/rocksdb_policy_state_store.cpp:273-345 | the same for a promotion |
| FlatOperations.CommitOnFlat | src/control_plane/rocksdb_policy_state_store.cpp:347-544 | the same for the audited commit and its one batch |
| FlatOperations.PromotedLoadsIff | src/control_plane/rocksdb_policy_state_store.cpp:241-345 | after a promotion that wrote, loading the pointer gives it back if and only if it survives its codec |
| FlatOperations.CommittedLoadsIff | src/control_plane/rocksdb_policy_state_store.cpp:241-544 | the same after an audited commit that moved the pointer |
| FlatProtocol.StepIsCall | src/control_plane/policy_apply_transaction.cpp:121-380 | every step of every actor is one store operation and a continuation from its answer |
| FlatProtocol.FlatRunIsRun | src/control_plane/rocksdb_policy_state_store.cpp:124-544 | any interleaving of applies, rollbacks and adopts on the flat database, whose records survive and whose generations fit their keys, does what it does on the typed store, which the flat database holds throughout |
| FlatProtocol.FlatAlwaysConsistent | src/control_plane/policy_apply_transaction.cpp:278-350 | at every moment of such a run the pointer read from the flat database leads to a record and a text in it, and hash and identity agree |
| FlatRequests.TameRunFits | src/control_plane/policy_apply_transaction.cpp:121-380 | a run fits the flat database if its ids, the language's identities, hashes and headers and the resource's name are printable and no field names, nor end in a quote and one, and if the generations named and the number of steps stay below 10^15 |
| FlatRequests.TameAlwaysConsistent | src/control_plane/rocksdb_policy_state_store.cpp:124-544 | under these conditions on what is submitted the flat database is consistent at every moment of every interleaving |
| FlatRequests.StepTame | src/control_plane/policy_apply_transaction.cpp:165-350 | every step of every actor builds its records from such texts only |
| FlatRequests.RunUpTo | src/control_plane/policy_generation_commit.cpp:27-44 | every step raises the generations at hand by at most one above those named |

## Left out

- PolicyStateStore.PolicyStateDb.CompareAndPromoteActive: the target check is modelled for the version keys of the resource, since every pointer the operations build names one; FlatOperations.TargetAgrees makes the lookup itself, for such keys.
- PolicyStateStore.PolicyStateDb.CommitPolicyGenerationWithAudit: of the audit record only the fields the commit path reads or rewrites are kept, and its text form is a parameter of FlatOperations; the target check is the one above.
- PolicyStateStore: the job records of the queue are not stored.
- CommitOperations.ExecuteApply: state-change notifications, lifecycle events, metrics, failure messages and wall-clock times are not modelled; a timestamp is a parameter.
- CommitOperations.ExecuteApply: the guardrail checks and plan building inside an apply are one parameter, the candidate they yield or none.
- CommitOperations.CommitPolicyGeneration: the path without an audit record, which neither rollback nor adopt takes.
- UpdateQueue.PolicyUpdateQueue.WorkShard: executing a job is one step that finishes it; what the transaction does to the store is CommitOperations, and activation after it is not modelled.
- InFlightRegistry.Registry.RegisterRequest: keys are those of at most 255 characters, which the slot keeps whole; counters and times are unbounded natural numbers.
- InFlightRegistry.Registry.CompleteResponse: a missing body pointer with a positive length, after which the slot keeps the bytes it had, is not modelled.
- InFlightRegistry.Registry.StartWait: the condition variable is two steps with anything in between; how long a wait lasts is not modelled.
- L1Cache.L1Shard.Insert: the 32-bit slot generation is unbounded here, so a wrap to zero after 2^32 overwrites of one slot is not modelled.
- L1Cache.L1Shard.CopyBody: the zero bytes behind a stored body are not kept.
- CacheKey.BuildCacheKey: what a refused build leaves in the buffer is not stated.
- FlatProtocol.FlatRunIsRun: generations are unbounded in the typed runs, while version keys collide from 10^15 on, which the hint of an adopt may reach; such runs, and those that write a record that does not survive its codec, are outside the flat theorem, for which FlatRequests.TameRunFits gives conditions on what is submitted, and after such a write only FlatOperations.PromotedLoadsIff and FlatOperations.CommittedLoadsIff say what is read.
- FlatOperations.CommitOnFlat: a stored number from 2^64 on, at which the source throws, is an error here; no store the operations leave holds one.
- JsonRecords: the audit, job and identity codecs and the nested failure object, which use the same printer and scanner.
- JsonFields.PrintRecord: the two serializers append their lines one statement after the other; here they are one loop over the list of fields.
- The second-level cache, the admin servers, protobuf mapping, header scanning, policy parsing and validation, compression and eligibility decisions, and the metrics are not part of this model.
