# Verified model of the copy-trading bridge

Masters and followers are rows of a SQL database. The API server mirrors them in an account cache,
in one Redis set of follower accounts per master (the subscriptions), and in a second Redis index of
records, sets and mappings (the fast lookup). A signal of a master is fanned out to followers that are
found through these mirrors, each with a lot of its own size.

This project models that machinery and proves what it keeps.

| area | modules |
|---|---|
| tables, constraints, repositories | `Schema`, `Repository` |
| account cache, alone and under concurrent requests | `Cache`, `CacheProtocol` |
| Redis: flat keys, commands, the two stores | `Keyspace`, `Commands`, `Stores`, `FastLookup` |
| concurrent fast-lookup calls, one command at a time; its warm-up | `FastLookupProtocol`, `WarmUp` |
| concurrent requests on the subscription sets, and on the status in the records | `SubscriptionProtocol`, `SubscriptionHistory`, `StatusProtocol` |
| the handlers, their answers, every run of them, routing, repair | `Registry`, `Handlers`, `Requests`, `RegistryRuns`, `Footprint`, `MasterIndex`, `RecordStatus`, `EntryHistory`, `Service`, `FlatSyncs` |
| fan-out by goroutines and channels; from signal to orders | `Distribute`, `Pipeline`, `Broadcast`, `SignalPath` |
| lot sizes, the signal queue, the relay, the hash bucket | `Lots`, `SignalQueue`, `Relay`, `Buckets` |

How the layers fit: a handler is a method of `Handlers.Server` that changes tables, cache and one flat
string-keyed Redis map step by step. Its contract equates the new state with an operation of `Registry`
on tables, cache and six separate key families; `Keyspace` proves that the flat map refines these.
`RegistryRuns` then reasons about every run of the operations. A Redis call carries the number of its
commands that the server answers; a cut call is logged and ignored, as in the code. `Registry.Audit` is
what such a log would show, and each theorem about runs says which of its entries must be absent.

The concurrent parts are state machines. A schedule is any sequence of enabled steps, where a step is
one SQL statement, one Redis command, one locked cache operation or one action of a goroutine. Timeouts,
cancellation and failures are steps that may be taken whenever the code could see them.

Results that run against first expectations:

- The fast path can return rows of another master, because the rows are selected by account alone.
  `RegistryRuns.PathsAgreeExactly` gives the exact condition, `RegistryRuns.OverDeliveryHappens` a run.
- The startup sync lists inactive followers too (the comment at internal/redis/subscription_store.go:122
  says active ones; the model follows the code): `RegistryRuns.StartupListsInactiveToo`.
- Warming the fast lookup up from the database repairs every live follower after every run, and removes
  nothing of a deleted one: `WarmUp.WarmUpRepairsLive`, `WarmUp.LeftoverHappens`.
- Deleting a master leaves its followers' fast-lookup records as they were; `RecordStatus.RecordStatusExactly`
  says for which followers the record is then wrong.
- The set of active masters never loses a member: `MasterIndex.ActiveMastersExactly`.
- A status update that read a record before its follower was unregistered brings the record back, and
  nothing else does: `FastLookupProtocol.RecordAtRestExactly`.
- A start of a follower beside a stop, its deletion or its master's deletion can leave an inactive account
  in the set; any other requests may run beside each other. `SubscriptionHistory.SetsAtRestExactly` says
  exactly when a set is right, `SubscriptionProtocol.SetsAtRest` what suffices.
- A start beside a stop can also leave the wrong status in the record: `StatusProtocol.StatusAtRestExactly`.
- A registration cut after its first or second command cannot be undone by deleting the follower:
  `EntryHistory.DeletedIsGoneExactly`.
- A delete that overtakes the creation of its master leaves a cache entry until the next reload;
  `CacheProtocol.CacheAtRest` says exactly when one is left.
- The hash bucket can be negative: `Buckets.BucketCanBeNegative`.
- Two families of Redis keys collide for IDs with colons and for a master called "followers"; generated
  IDs have neither: `Keyspace.CollisionsExactly`, `Keyspace.GeneratedKeysAreSound`.

`dafny verify dfyconfig.toml` checks everything.

## Model

| member | source | states |
|---|---|---|
| `Schema.StatementKeepsWf` | migrations/001_create_master_follower_tables.sql:9-40 | every statement keeps the primary keys, both unique constraints, the foreign key, the checks, and that deleted followers are inactive; and every row persists with its master and account, a deleted one unchanged |
| `Schema.StatementsExtend` | internal/repository/follower_repo.go:24-206 | the same over every sequence of statements, so over every interleaving of requests |
| `Schema.DeletionIsPermanent` | internal/repository/follower_repo.go:184-206 | after any later statements a soft-deleted follower is unchanged and inactive, is not among the rows selected by account, and its (master, account) pair is refused for every new row ID |
| `Schema.MasterInsertable` | internal/repository/master_repo.go:24-51 | an account can be inserted as master if and only if no row, live or deleted, holds it; an account that any row ever held is refused as a duplicate for good |
| `Schema.SoftDeleteMasterKeepsWf` | internal/repository/master_repo.go:112-149 | the transaction keeps every constraint and changes no deleted row, whether or not a live master has the ID |
| `Repository.FollowerRepository.Create` | internal/repository/follower_repo.go:24-60 | the insert with its default multiplier and its error classes; on an error the tables stay as they were |
| `Repository.FollowerRepository.GetByID` | internal/repository/follower_repo.go:63-92 | the row if it is not deleted, otherwise not found |
| `Repository.FollowerRepository.UpdateStatus` | internal/repository/follower_repo.go:159-181 | the row-wise UPDATE is the update of one live row; not found, and no change, when no live row has the ID |
| `Repository.FollowerRepository.SoftDelete` | internal/repository/follower_repo.go:184-206 | the row-wise UPDATE marks and deactivates one live row; not found, and no change, otherwise |
| `Repository.FollowerRepository.GetActiveFollowersByMaster` | internal/repository/follower_repo.go:209-247 | lists each active, undeleted row of the master once and nothing else |
| `Repository.FollowerRepository.GetByAccountIDs` | internal/repository/follower_repo.go:291-341 | lists each active, undeleted row with one of the accounts once, under whatever master; repetitions in the argument do not matter |
| `Repository.FollowerRepository.GetAll` | internal/repository/follower_repo.go:377-415 | lists each undeleted row once, inactive ones included |
| `Repository.MasterRepository.Create` | internal/repository/master_repo.go:24-51 | the insert and its error classes; on an error the tables stay as they were |
| `Repository.MasterRepository.GetByID` | internal/repository/master_repo.go:54-80 | the row if it is not deleted, otherwise not found |
| `Repository.MasterRepository.SoftDelete` | internal/repository/master_repo.go:112-149 | both updates of the transaction together are the master deletion; returns how many follower rows it touched |
| `Repository.MasterRepository.Exists` | internal/repository/master_repo.go:152-160 | true exactly for live masters |
| `Cache.MasterCache.LoadFromDB` | internal/cache/master_cache.go:71-101 | a failed query leaves the cache, a failed scan leaves only true entries, a full scan makes the cache exactly the account-to-ID map of the live masters |
| `CacheProtocol.ScheduleKeepsInv` | internal/cache/master_cache.go:35-101 | the invariant of the cache under every interleaving of single steps of any number of CreateMaster, DeleteMaster and LoadFromDB calls |
| `CacheProtocol.CacheUnderConcurrency` | internal/api/handlers.go:287-297 | at every moment each entry names a row with its account that is live, or is about to be evicted, or whose entry was set after its deletion; each live master is cached, about to be set, or about to be loaded |
| `CacheProtocol.CacheAtRest` | internal/api/handlers.go:545-563 | with nothing in flight after a complete load the dead entries are exactly those set on an already deleted row and neither evicted nor reloaded since; the cache is the live map if and only if there are none, in particular when no delete overtook a creation |
| `CacheProtocol.EarlyDeleteLeavesEntry` | internal/api/handlers.go:287-297 | why early deletes are excepted: for every insertable master, a schedule in which a delete between insert and cache update leaves an entry for a deleted master |
| `Keyspace.SplitJoin` | internal/redis/fast_lookup.go:105-111 | splitting at colons undoes joining for colon-free parts |
| `Keyspace.DecodeEncode` | internal/redis/fast_lookup.go:49-111 | round trip: the flat key of every usable family key reads back as that family and ID |
| `Keyspace.CollisionsExactly` | internal/redis/client.go:227-233 | for colon-free IDs two different keys are the same string if and only if they are the two set keys of a master called "followers" |
| `Keyspace.ColonsCollide` | internal/redis/fast_lookup.go:105-111 | a colon in an ID makes keys of different families collide |
| `Keyspace.GeneratedKeysAreSound` | internal/api/handlers.go:62-66 | generated IDs have no colon and are never "followers", so all their keys are distinct |
| `Keyspace.ApplyRefines` | internal/redis/fast_lookup.go:48-120 | each command on the flat map does what it does on six separate maps, with the same reply |
| `Keyspace.RunRefines` | internal/redis/fast_lookup.go:81-152 | the same for a sequence of commands that stops at the first error, cut anywhere |
| `Keyspace.PipeRefines` | internal/redis/subscription_store.go:115-138 | the same for a pipeline, cut anywhere, with the same success |
| `Keyspace.SubscribedMastersExactly` | internal/redis/subscription_store.go:148-160 | the key pattern finds exactly the masters that have a subscription set |
| `Commands.RunFits` | internal/redis/fast_lookup.go:48-226 | calls on well-typed keys succeed exactly when all their commands are answered, keep the types and touch only the keys they name |
| `Commands.PipeFits` | internal/redis/subscription_store.go:115-138 | a pipeline of well-typed commands does what a run of them does and succeeds exactly when every command is answered |
| `Commands.SyncCall` | internal/distributor/service.go:56-74 | from any contents: a sync that completes leaves exactly the listed accounts, one cut after the clear leaves a prefix of them, one cut before it changes nothing; other keys are untouched |
| `Commands.ReplaceCall` | internal/redis/subscription_store.go:115-138 | a bulk sync leaves each listed master exactly its group and touches no other key, cut or not |
| `Commands.ReplaceInAnyOrder` | internal/redis/subscription_store.go:115-138 | the result of a bulk sync does not depend on the order in which the map is ranged over |
| `Stores.SubscriptionStore.AddFollower` | internal/redis/subscription_store.go:23-30 | one SADD on the flat subscription key, or a failed call that changes nothing |
| `Stores.SubscriptionStore.RemoveFollower` | internal/redis/subscription_store.go:33-40 | one SREM on the flat subscription key, or a failed call that changes nothing |
| `Stores.SubscriptionStore.GetFollowers` | internal/redis/subscription_store.go:43-50 | each member once; an error exactly when Redis does not answer or the key is not a set |
| `Stores.SubscriptionStore.ClearMasterFollowers` | internal/redis/subscription_store.go:73-80 | one DEL on the flat subscription key, or a failed call that changes nothing |
| `Stores.SubscriptionStore.GetAllMasterKeys` | internal/redis/subscription_store.go:148-160 | the suffix of each key that matches the pattern, once; an error exactly when Redis does not answer |
| `Stores.SubscriptionStore.SyncFromFollowerList` | internal/redis/subscription_store.go:115-138 | builds and sends the pipeline that replaces each listed master's set, in some order of the map; succeeds exactly when every command was answered without error |
| `Stores.SubscriptionStore.SyncFromFollowers` | internal/redis/subscription_store.go:83-112 | the same pipeline on the accounts grouped by master, each master present in the list once, duplicates forgotten; the same condition for success |
| `Stores.GroupByMaster` | cmd/api/main.go:61-70 | the grouping loop puts under each master present exactly its accounts |
| `FastLookup.FastLookupStore.RegisterMaster` | internal/redis/fast_lookup.go:48-78 | record, then membership in the active masters; stops at the first error |
| `FastLookup.FastLookupStore.RegisterFollower` | internal/redis/fast_lookup.go:81-120 | record, then set, then mapping; stops at the first error |
| `FastLookup.FastLookupStore.UnregisterFollower` | internal/redis/fast_lookup.go:123-152 | reads the mapping, then removes set membership, mapping and record in this order; an unmapped follower is an error that changes nothing |
| `FastLookup.FastLookupStore.GetMasterForFollower` | internal/redis/fast_lookup.go:155-161 | the mapped master, or nothing |
| `FastLookup.FastLookupStore.GetFollowerInfo` | internal/redis/fast_lookup.go:173-185 | the record, or nothing |
| `FastLookup.FastLookupStore.UpdateFollowerStatus` | internal/redis/fast_lookup.go:212-226 | reads the record and writes it back with the new status only; no record is an error that changes nothing |
| `FastLookup.FastLookupStore.SyncFromDatabase` | internal/redis/fast_lookup.go:240-289 | one pipeline: clear the active masters, then each undeleted master, then each undeleted follower, in list order; succeeds exactly when every command was answered without error |
| `WarmUp.AllFollowers` | internal/redis/fast_lookup.go:260-279 | the pipeline writes the record and mapping of each listed row and adds its membership, and leaves the entries of other IDs and the subscriptions alone |
| `WarmUp.WarmUpRepairsExactly` | internal/redis/fast_lookup.go:240-289 | from any contents: a follower ID ends with the right entries if and only if the index held no leftover about it, because a warm-up never removes |
| `WarmUp.WarmUpMasters` | internal/redis/fast_lookup.go:240-258 | from any contents: exactly the listed masters are active afterwards, and no subscription changes |
| `WarmUp.RunKeepsMembers` | internal/redis/fast_lookup.go:81-152 | over every run, cut or not: a member of a master's set has a row, live or deleted, under that master |
| `WarmUp.WarmUpRepairsLive` | internal/redis/fast_lookup.go:240-289 | after every run, whichever Redis calls were cut, a completed warm-up makes the entries of every live follower right |
| `WarmUp.WarmUpKeepsLeftovers` | internal/redis/fast_lookup.go:240-289 | after every run, it leaves the entries of a follower that is gone as they were, and they are right if none of its calls was cut |
| `WarmUp.CutDeletionLeavesRecord` | internal/api/handlers.go:609-626 | a follower whose deletion is cut before its fast-lookup call keeps its record through every warm-up |
| `WarmUp.LeftoverHappens` | internal/api/handlers.go:609-626 | three requests that lead there, for any master and follower |
| `WarmUp.WarmUpKeepsRightEntries` | internal/redis/fast_lookup.go:240-289 | during any run a warm-up spoils no entries that were right |
| `FastLookup.UnregisterRefines` | internal/redis/fast_lookup.go:123-152 | unregistering on flat keys does what it does on the families |
| `FastLookup.RestatusRefines` | internal/redis/fast_lookup.go:212-226 | a status update on flat keys does what it does on the families |
| `Handlers.Server.constructor` | internal/api/handlers.go:44-59 | an empty database and an empty Redis satisfy the server's invariant |
| `Handlers.Server.CreateMaster` | internal/api/handlers.go:246-314 | the handler, statement by statement over tables, cache and flat Redis, is the registry operation, for every early return and every cut of the Redis calls |
| `Handlers.Server.RegisterFollower` | internal/api/handlers.go:317-408 | likewise |
| `Handlers.Server.SetFollowing` | internal/api/handlers.go:411-526 | likewise, for StartFollowing and StopFollowing |
| `Handlers.Server.DeleteMaster` | internal/api/handlers.go:529-579 | likewise |
| `Handlers.Server.DeleteFollower` | internal/api/handlers.go:582-634 | likewise |
| `Requests.CreateMasterAnswers` | internal/api/handlers.go:253-293 | which answer exactly when: bad request for the lengths, server error for a failed hash or a row that does not fit, conflict if and only if a row, live or deleted, has the ID or account, created otherwise |
| `Requests.CreateMasterEffect` | internal/api/handlers.go:274-297 | created if and only if the row is new; it holds the requested account and server and the hash, its account is cached, other rows and entries are as before; any other answer changes nothing |
| `Requests.RegisterFollowerAnswers` | internal/api/handlers.go:333-378 | which answer exactly when: missing if and only if the master is not there or deleted, then bad request, server error, conflict or created |
| `Requests.RegisterFollowerEffect` | internal/api/handlers.go:366-395 | created if and only if the row is new; it is an inactive row under a live master with the requested account, server and multiplier and the hash; any other answer changes nothing |
| `Requests.RegisteredRecord` | internal/redis/fast_lookup.go:81-120 | with its commands answered the registration leaves a record with the requested account, server and multiplier under its master |
| `Requests.SetFollowingEffect` | internal/api/handlers.go:426-445 | done if and only if the follower is not deleted; its row takes the status asked for and nothing else in the tables changes |
| `Requests.DeleteMasterEffect` | internal/api/handlers.go:545-563 | done if and only if the master lives; its row is marked, its followers become inactive, its account leaves the cache, and nothing else changes in tables and cache |
| `Requests.DeleteFollowerEffect` | internal/api/handlers.go:597-626 | done if and only if the follower is not deleted; its row is marked and inactive and nothing else changes in tables and cache |
| `Requests.RowsAppearUnderLive` | internal/api/handlers.go:333-341 | a follower row appears only by a registration under a live master |
| `Requests.DeletedMasterGainsNobody` | internal/api/handlers.go:333-341 | over every run: a deleted master stays deleted and no follower row is ever added under it |
| `RegistryRuns.StepKeepsInv` | internal/api/handlers.go:246-634 | every handler, sync and startup sync keeps: tables well-formed, cache exact, subscription sets and fast-lookup entries right except where the audit of lost Redis calls says otherwise |
| `RegistryRuns.RunKeepsInv` | internal/api/handlers.go:246-634 | the same over every run |
| `RegistryRuns.PathsAgreeExactly` | internal/distributor/service.go:34-53 | when every active account of the master is listed, the fast path returns every row the slow one would, and no other if and only if no listed account is active under another master |
| `RegistryRuns.RoutingOverRuns` | cmd/tcp/main.go:253-302 | over every run with Redis calls cut anywhere: for a master none of whose additions was lost, the fast path covers the slow one, with the exact condition for equality; when none of its calls was lost its set is exactly its active accounts |
| `RegistryRuns.AnsweredRunsAreClean` | internal/api/handlers.go:438-516 | when Redis answers every command nothing is lost or stale, and without a startup sync every subscription set is exact |
| `RegistryRuns.SameAccountUnderTwoMasters` | internal/repository/follower_repo.go:304-308 | after every run, if an account is active under a master that lost no addition and under another one too, the other one's row is in the first one's fast path and not in its slow path |
| `RegistryRuns.OverDeliveryHappens` | internal/repository/follower_repo.go:304-308 | six answered requests that lead there, for any two masters and any follower account |
| `RegistryRuns.StartupListsInactiveToo` | cmd/api/main.go:61-70 | after a startup sync a set equals all undeleted accounts, which are the active ones if and only if the master has no inactive follower |
| `RegistryRuns.FastLookupOverRuns` | internal/api/handlers.go:381-626 | over every run: a follower none of whose calls was cut has a record with its row's master, account and server, and its status while its master lives, one mapping and one set membership; a deleted or unknown one has nothing |
| `EntryHistory.EntriesExactly` | internal/redis/fast_lookup.go:81-152 | over every run, cut anywhere: record, memberships and mapping of a follower are exactly those that the answered commands of its registration and of its deletion leave; an unknown ID has none |
| `EntryHistory.DeletedIsGoneExactly` | internal/api/handlers.go:609-626 | nothing is left of a deleted follower if and only if no command of its registration was answered, or all three and all four of its deletion |
| `EntryHistory.CutRegistrationOutlivesDeletion` | internal/redis/fast_lookup.go:123-152 | a registration cut after its first or second command leaves a record that a fully answered deletion does not remove |
| `Footprint.StepFootprint` | internal/api/handlers.go:317-634 | every operation but CreateMaster leaves the masters' keys and the entries of all followers but its own alone |
| `RegistryRuns.MasterDeletionLeavesRecords` | internal/api/handlers.go:529-579 | after the deletion of its master the record of a follower shows the status it had before, so it shows the row's status if and only if the follower was inactive |
| `RecordStatus.RecordStatusExactly` | internal/api/handlers.go:381-579 | over every run: the record of a live follower none of whose calls was cut shows the status of its row if and only if it was not active when its master was deleted or was started or stopped since |
| `MasterIndex.OthersKeepMasters` | internal/api/handlers.go:317-634 | no operation but CreateMaster changes what the index shows about masters, DeleteMaster included |
| `MasterIndex.MasterIndexOverRuns` | internal/redis/fast_lookup.go:48-78 | over every run: a master whose registration was not cut is in the set of active masters, and has a record with its row's ID, account and server, exactly when its row exists, deleted or not; other IDs have neither |
| `MasterIndex.ActiveMastersExactly` | internal/api/handlers.go:570-571 | so the set of active masters equals the live masters if and only if no master was ever deleted |
| `SignalPath.OneOrderEach` | internal/distributor/signal_distributor.go:38-90 | a returned call without timeouts has sent as many orders as it has followers; each of them has one that fits its account, server, password, multiplier, lot and the signal, and each order of the call fits one of them |
| `SignalPath.SignalReachesActiveFollowers` | cmd/tcp/main.go:253-302 | end to end: after any run in which no addition for the master was lost, distributing to the rows of the fast path sends every active follower an order that fits it field by field, as many orders as rows, and only to followers of the master if and only if no listed account is active under another |
| `Service.DistributionService.Recipients` | internal/distributor/service.go:34-53 | the rows selected by the members of the master's set; an error exactly when Redis does not answer or the key holds no set |
| `Service.DistributionService.Route` | cmd/tcp/main.go:245-302 | a signal is handed on exactly for the account of a cached master, to that master's recipients |
| `Service.RecipientsAreFastPath` | cmd/tcp/main.go:262-287 | read on the flat store these are the rows of the fast path |
| `Service.DistributionService.SyncFollowers` | internal/distributor/service.go:56-74 | the method is the clear followed by one addition for each active row, stopping at the first error |
| `Service.SyncRepairs` | internal/distributor/service.go:56-74 | from any prior contents a completed sync leaves exactly the active accounts, one cut after the clear a subset of them, and no other key changes |
| `Service.SyncAtStartup` | cmd/api/main.go:61-70 | replaces the set of each master that has an undeleted follower by the accounts of all of them, in one pipeline; says when it succeeds |
| `Service.GroupsAtStartup` | cmd/api/main.go:61-70 | the groups of the fetched rows are the undeleted accounts of each master that has any |
| `FlatSyncs.SyncRefinesStep` | internal/distributor/service.go:56-74 | on the flat store a sync of one master does what its event does in the runs, cut anywhere, and succeeds exactly when all its commands are answered |
| `FlatSyncs.StartupRefinesStep` | cmd/api/main.go:61-70 | on the flat store the startup sync does what its event does in the runs, cut anywhere |
| `FlatSyncs.WarmUpRefines` | internal/redis/fast_lookup.go:240-289 | on the flat store a warm-up does what it does on the families, cut anywhere, and succeeds exactly when all its commands are answered |
| `FlatSyncs.StartupSync` | cmd/api/main.go:61-70 | beside a server: the startup sync takes its whole state to that of the event |
| `FlatSyncs.SyncOne` | internal/distributor/service.go:56-74 | likewise for the sync of one master |
| `FlatSyncs.WarmUpAll` | internal/redis/fast_lookup.go:240-289 | likewise for a warm-up from lists of the server's rows |
| `SubscriptionProtocol.ScheduleKeepsInv` | internal/api/handlers.go:411-634 | what is owed to each subscription set, kept under every calm interleaving of single statements and commands, with requests cut anywhere |
| `SubscriptionProtocol.SetsAtRest` | internal/api/handlers.go:411-634 | what a caller can ensure: if no start of a follower runs beside a stop or deletion of it or the deletion of its master, then with no request on the master's side in flight and none cut its set is exactly its active accounts |
| `SubscriptionProtocol.StartBesideStop` | internal/api/handlers.go:437-509 | from every state at rest a start beside a stop can leave an inactive follower listed, although both complete |
| `SubscriptionProtocol.StartBesideDrop` | internal/api/handlers.go:437-626 | likewise a start beside the deletion of the follower, active or not |
| `SubscriptionProtocol.StartBesideDeletion` | internal/api/handlers.go:437-568 | likewise a start beside the deletion of its master |
| `SubscriptionHistory.ScheduleKeepsHistory` | internal/api/handlers.go:411-634 | under every interleaving whatever, a row is shown by its master's set exactly if it is not crossed, unless a request that has written it is under way or one of the master's was cut |
| `SubscriptionHistory.SetsAtRestExactly` | internal/api/handlers.go:411-634 | under every interleaving whatever, with no request on the master's side in flight and none cut, its set is exactly its active accounts if and only if none of its followers is crossed: last command against the row, a clear after a start, or a silent deletion of a listed one |
| `SubscriptionHistory.SelectedExactly` | cmd/tcp/main.go:262-287 | the two reads of a signal beside any requests: only rows active at the SELECT are returned, and a follower of the master is returned if and only if it was listed at the SMEMBERS and is active at the SELECT |
| `SubscriptionHistory.SettledIsSelected` | cmd/tcp/main.go:262-287 | a follower on which nothing was outstanding at the SMEMBERS is returned if and only if it is active at the SELECT and, unless crossed, was active at the SMEMBERS |
| `StatusProtocol.StatusAtRestExactly` | internal/api/handlers.go:381-516 | under every interleaving of registrations, starts, stops and deletions: a live follower with no request in flight and none cut has a record with its master, account and server, and the record shows its status if and only if it was last set to the status the row then had and did not say active when its master's deletion deactivated the row since |
| `StatusProtocol.StartBesideStop` | internal/redis/fast_lookup.go:212-226 | from every state at rest a start beside a stop can leave an inactive follower's record active, although both complete |
| `FastLookupProtocol.ScheduleKeepsInv` | internal/redis/fast_lookup.go:81-226 | what each call in flight knows at each of its commands, kept under every interleaving with calls stopping anywhere |
| `FastLookupProtocol.IndexNeverDangles` | internal/redis/fast_lookup.go:81-152 | under every interleaving, a set member and a mapped follower have a record, and all three name the master it was registered with |
| `FastLookupProtocol.DirectionsAgreeAtRest` | internal/redis/fast_lookup.go:81-226 | with no call on the follower in flight and none stopped early, membership in a master's set and a mapping to it are equivalent |
| `FastLookupProtocol.RecordAtRestExactly` | internal/redis/fast_lookup.go:123-226 | with no call on the follower in flight and none stopped early, a record without a mapping is exactly one that an update wrote back after it was removed |
| `FastLookupProtocol.RecordAgreesIfRemovedAlone` | internal/redis/fast_lookup.go:123-226 | if no update of the follower is in flight when an unregister call removes its record, then at rest record and mapping come and go together |
| `FastLookupProtocol.RecordCanOutliveUnregistration` | internal/redis/fast_lookup.go:212-226 | otherwise they need not: a schedule in which every call completes and an update brings back the record of an unregistered follower |
| `Distribute.ScheduleKeepsInv` | internal/distributor/signal_distributor.go:38-90 | counters, wait group and channel agree with the goroutines' positions at every step, and the channel is first in, first out: what was sent stays sent in the same order |
| `Distribute.ReturnedCallsAreExact` | internal/distributor/signal_distributor.go:38-80 | a returned call has all its goroutines done, successes plus errors equal to the followers, exactly as many orders as successes and one for each successful follower; the channel never holds more than 1000 |
| `Distribute.OrdersAreRight` | internal/distributor/signal_distributor.go:83-90 | at every moment each order sent fits, field by field, the follower of the goroutine that sent it, that goroutine counts or will count a success, and none has sent two |
| `Distribute.CanStep` | internal/distributor/signal_distributor.go:53-90 | a call that has not returned always has an enabled step |
| `Distribute.ReturnsAfterExactly` | internal/distributor/signal_distributor.go:38-80 | a call with n > 0 followers returns after exactly 5n + 1 steps of its own, under every schedule, and until then one of its goroutines can step |
| `Distribute.NoTimeoutNoError` | internal/distributor/signal_distributor.go:83-90 | without timeouts a returned call reports no error |
| `Pipeline.ScheduleKeepsInv` | internal/redis/signal_hub.go:80-112 | conservation and channel states under every interleaving; what the worker has received only grows |
| `Pipeline.PipelineConserves` | internal/redis/signal_hub.go:80-112 | received, 100 slots, held, 4096 slots, held are together exactly what was decoded, in order; the channels stay within their slots |
| `Pipeline.ClosedMeansComplete` | internal/distributor/signal_broadcaster.go:53-64 | when the worker's channel is closed and empty everything was received, but for the item a cancelled hub dropped |
| `Pipeline.NoSendOnClosed` | internal/distributor/signal_broadcaster.go:53-64 | neither goroutine sends on a closed channel, and the worker's channel is not closed twice |
| `Pipeline.CanMove` | internal/distributor/signal_broadcaster.go:53-64 | before cancellation the stages cannot block each other, and each move is one of the finitely many left |
| `Pipeline.DrainedMeansDelivered` | internal/distributor/signal_broadcaster.go:53-64 | without cancellation nothing left to move means everything decoded was received |
| `Lots.LotOnGrid` | internal/distributor/follower_order.go:50-65 | every lot is one of 0.01, 0.02, ..., 100.00 |
| `Lots.LotIsNearestGridPoint` | internal/distributor/follower_order.go:50-65 | for every raw lot no grid point is nearer to it |
| `Lots.TieGoesUp` | internal/distributor/follower_order.go:50-65 | half-way between two grid points the lot is the larger one |
| `Lots.LotDetermined` | internal/distributor/follower_order.go:50-65 | the lot is the one grid point nearest to the raw lot, the larger of two that are equally near; no other lot is |
| `Lots.CreatedOrderFits` | internal/distributor/follower_order.go:20-46 | the order goes to the follower's account on its server with its password and multiplier, and its signal is the master's but for a blank account and the follower's lot; no other order does |
| `Lots.LotIdempotent` | internal/distributor/follower_order.go:50-65 | calculating again with multiplier one changes nothing |
| `Lots.LotMonotone` | internal/distributor/follower_order.go:50-65 | for non-negative master lots a larger multiplier never gives a smaller lot |
| `Lots.LotErrorExactly` | internal/distributor/follower_order.go:50-65 | the error is at most half a step if and only if the raw lot is within half a step of the range of the grid |
| `Lots.TotalLotError` | internal/distributor/lot_calculation_test.go:255-267 | the lots of a fan-out add up to the master's lot times the sum of the multipliers within n/200 |
| `Lots.OrderCopiesSignal` | internal/distributor/follower_order.go:20-91 | an order's signal is the master's but for account and lot |
| `SignalQueue.Queue.Push` | signal/queue.go:42-46 | appends, in place or in a fresh array |
| `SignalQueue.Queue.Pop` | signal/queue.go:48-57 | takes the first, or reports an empty queue |
| `SignalQueue.Queue.Drain` | signal/queue.go:59-66 | returns all in order in a fresh array and leaves the queue empty on its old array |
| `SignalQueue.Queue.Size` | signal/queue.go:68-73 | the number of elements |
| `SignalQueue.Queue.Clear` | signal/queue.go:75-79 | leaves the queue empty on its old array |
| `SignalQueue.FirstInFirstOut` | signal/queue.go:42-79 | over any operations, what was there and pushed is, in order, what was removed followed by what is left |
| `SignalQueue.Replay` | signal/queue.go:42-79 | any operations on one queue give the contents of the sequence model, take out what the model removes, in order, and no drained array is ever changed by a later one |
| `Broadcast.SignalBroadcaster.BroadcastToFollowers` | internal/distributor/signal_broadcaster.go:102-136 | one group for each master of a follower whose record was read and is active, in input order; exactly one publish attempted for each such master |
| `Broadcast.GroupsPartition` | internal/distributor/signal_broadcaster.go:109-128 | the groups of distinct masters together hold each follower that counts as often as it was listed, and nothing else |
| `Broadcast.TargetsByRecords` | internal/distributor/signal_broadcaster.go:109-128 | a master is published to if and only if some listed follower was looked up with success and its record is active and names it |
| `Broadcast.TargetsCover` | internal/distributor/signal_broadcaster.go:109-128 | in particular the groups behind the publishes of one broadcast |
| `Relay.Connection.Attempt` | cmd/relay/main.go:136-199 | one turn of the loop: at most one dial, exactly one if it fails; delivers once and last, or never; a connection that is found is tried before another is dialled; the connection is kept exactly on success |
| `Relay.Connection.SendToServer` | cmd/relay/main.go:133-202 | at most three dials, exactly three if it fails; no error exactly if one write of the line went through, as the last event; a connection that was dialled is written to |
| `Relay.Connection.HandleLine` | cmd/relay/main.go:229-263 | a line with neither action nor side is rejected and nothing is dialled; any other is answered ok if and only if its translation went through, and otherwise three dials were made; one response, as the last event |
| `Relay.Connection.HandleConn` | cmd/relay/main.go:217-266 | everything that happens is, line by line in order, what happens for one non-empty line; so one response each, and the payloads delivered are, in order, the translations of the lines answered ok |
| `Relay.PayloadCarries` | cmd/relay/main.go:51-74 | each field of the payload is the signal's; closing, editing and opening signals get the action CLOSE, MODIFY and their side, others none; no other payload does |
| `Relay.TranscriptSnoc` | cmd/relay/main.go:217-266 | one more line extends the transcript |
| `Buckets.GetBucket` | internal/redis/fast_lookup.go:30-36 | strictly between -16 and 16, congruent modulo 16 to the alternating sum of the code points, and non-negative if and only if the wrapped hash is or the sum is a multiple of 16 |
| `Buckets.WrapStep` | internal/redis/fast_lookup.go:30-36 | wrapping at every step is wrapping once at the end |
| `Buckets.UnwrappedResidue` | internal/redis/fast_lookup.go:30-36 | 31 is -1 modulo 16, so the hash is congruent to the alternating sum |
| `Buckets.BucketResidue` | internal/redis/fast_lookup.go:30-36 | the same residue after wrapping and truncated remainder, and when the result is non-negative |
| `Buckets.BucketInRange` | internal/redis/fast_lookup.go:30-36 | a bucket index 0..15 for every key whose hash stays below 2^63, in particular every ASCII key of at most 12 characters |
| `Buckets.BucketCanBeNegative` | internal/redis/fast_lookup.go:30-36 | thirteen letters "f" give bucket -10 |

## Left out

- HTTP, JWT, password hashing, JSON, metrics, logging, configuration: library calls and plumbing. A hash is a parameter that may fail; JSON and pipe decoding in the relay are a parameter `decode`.
- Path parsing: handlers start where the ID is known. (The follower handlers take the third path segment where the route puts the ID in the fourth.)
- `GetMasterFollowers`, the count queries and `HealthCheck`: read-only and easy.
- Transient database errors: statements answer. Only `LoadFromDB` and the delete transaction of `CacheProtocol` may fail, and the requests of `SubscriptionProtocol` may be cut anywhere.
- One interleaved model of everything: `RegistryRuns` runs handlers one after another; the cache, the subscription sets, the fast lookup, the status in the records and the row statements are each proved under interleaving on their own.
- The master deletion transaction is one atomic step.
- RegistryRuns.FastLookupOverRuns: says nothing about the multiplier, because the database rounds that column to two decimals and the record keeps the unrounded value. What is left after a cut is in `EntryHistory`.
- RegistryRuns.RoutingOverRuns: a master that lost a call counts as unsafe until a complete sync or deletion, even if a later call happens to repair the set.
- The bridge process fills its own account cache once at start, so the cache theorems are about the API process and are not composed with routing.
- `SyncFromDatabase`, `getBucket`, `SyncFromFollowers`, the service and the broadcaster have no callers; they are modelled for their contracts and are no events of the runs, except the service's sync; a warm-up is proved on the state after any run.
- `StopFollower` and `Close` of the broadcaster: they close a channel that the forwarder may still send on. `Pipeline` is about one worker that is only cancelled.
- Forwarding from the bridge to the relay, and the bridge's own line parser, which indexes the third part after checking for two.
- Event publishing and the content of published signals; delivery by Redis is an ordered input stream.
- Lots.TotalLotError: real arithmetic without rounding of intermediate results and without NaN or infinities; the same goes for every lemma on lots.
- Counters of a fan-out are unbounded; the code has 32 bits.
- Lengths of accounts and servers are counted in characters, which for ASCII are the bytes that the handlers count.
- Relay.Connection.Attempt: what other client connections do to the shared server connection is one arbitrary decision before each look at it; two connections writing at the same moment are not interleaved byte by byte.
- Clocks and latency: a timeout may happen at any moment.
- Timestamps of rows and records.
- Trivial members: side reversal, multiplier validation, single reads after writes of the cache.
