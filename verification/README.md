# libfiu in Dafny

libfiu injects failures into programs: code asks `fiu_fail("name")`, and an operator enables and
disables points of failure, by exact name or by a trailing-`*` pattern. This project models its core and
proves what that core promises.

| file | what it models |
|---|---|
| `Slots.dfy`, `HashTable.dfy`, `HashRun.dfy` | the open-addressing hash table of `libfiu/hash.c`: the slot array as a value with the probe-path invariant, the class whose methods update it in place, and whole runs against a finite map |
| `Cache.dfy` | the lookup cache of `libfiu/hash.c`: the same array, read and written at home slots only, but rebuilt by probing |
| `Words.dfy`, `Murmur.dfy` | MurmurHash2 on 32-bit words, for either byte order and either signedness of `char` |
| `Wildcards.dfy`, `WTable.dfy`, `WTableRun.dfy` | the wildcard table of `libfiu/wtable.c`: the pattern array as a value, the class with its hash, array and cache, and whole runs against a table without a cache |
| `Prng.dfy` | the linear congruential generator of `libfiu/fiu.c` and the failure counts it gives |
| `Engine.dfy`, `EngineInvariant.dfy`, `EngineRun.dfy`, `EngineLifetime.dfy`, `EngineOrder.dfy`, `EngineOrigin.dfy`, `EngineProgress.dfy`, `EngineSolo.dfy`, `EngineUse.dfy` | `fiu_fail`, enabling, disabling and initialising as interleaved steps of any number of threads; what every step keeps; what holds of every run; how long a point lives; what a call must have seen; which calls the table and the points come from; that calls complete; what each call does when it runs on its own, and what a program that initialises, enables, fails and disables sees |
| `Numbers.dfy`, `Commands.dfy`, `RoundTrip.dfy`, `CommandLines.dfy` | the remote-control language: the Python printer, the newline splitter, the C parser, the round trip, and what becomes of lines no printer here writes |
| `Arithmetic.dfy` | a fact about remainders that the probes and the generator share |
| `Ferror.dfy` | the injected error state of streams behind `ferror`, `clearerr` and `fclose` |

The layers meet. The table classes are proved for any key hash function, so MurmurHash2 stands on its own.
The engine splits `wtable_get`, `wtable_set` and `wtable_del` into single steps over the same functions
(`Hit`, `Store`, `Grown`, `Put`, `Shrunk`, `Invalidated`) that the methods of `Cache` and `WTable` are
proved against, and `EngineRuns.TableIsSequential` shows that the shared table is the sequential one again
whenever no writer is inside. The stream marks of `Ferror.dfy` live in the hash table of `HashTable.dfy`.

The engine is a state machine because its promises are about interleavings. A thread's place in the code is
its `Pc`; the table, the points, the read/write lock, the mutex owner of each ONETIME point and each
thread's `rec_count` are the state. `Table.ops` and `Table.enabled`, the calls made, the log of completed
calls, a point's `freed`, `winner` and `stored` (the failnums it has had), and a thread's `last` (what its
last `fiu_fail` returned) are history: no choice of a step depends on them. A step that resizes the cache
may keep any of its entries anywhere, or none: that covers what `cache_resize` can do, whatever its
uninitialised `size` held.

## What is assumed

- Memory allocation and `pthread_atfork` succeed. `libfiu/wtable.c:343-344` returns before the invalidation at line 350 when a
  resize fails, so without this the cache could go stale.
- Names are not empty (`libfiu/wtable.c:130-134` reads the last character), table values are not NULL, and
  strings hold no NUL character.
- `fiu_init` has completed before anything is enabled or disabled, as `libfiu/fiu.c:290-292` asks;
  `fiu_fail` may come at any time.
- Nothing calls `fiu_fail` between the return of `pf_create` and the call of `insert_pf` on one thread.
  `libfiu/fiu.c:471` does run `get_func_end` there, with `rec_count` at 0: the assumption is that no failure
  point lies inside it.
- Callbacks may change the failnum and may call `fiu_fail`, and do nothing else to the library.

## Where code and documentation disagree

- `libfiu/fiu-control.h:40-42` says that probability 1, and -1 as a special case, always fail. The code
  compares strictly at `libfiu/fiu.c:337` and has no special case. `Prng.AlwaysAndNever` gives the exact
  condition: every draw fails exactly when the probability is above 1, no draw fails exactly when it is at
  most 0, and -1 never fails.
- `bindings/python/fiu_ctrl.in.py:49-52` drops a failnum of 0 and the parser then uses 1, and
  `bindings/python/fiu_ctrl.in.py:87-88` drops any negative stack position and the parser then uses -1.
  `RoundTrips.FaithfulWhen` says exactly when a line carries its arguments,
  `RoundTrips.ZeroFailnumBecomesOne` and `RoundTrips.LowPositionBecomesMinusOne` give the inputs, and
  `RoundTrips.ParseAnyLine` says what becomes of a line past 511 characters, which is cut rather than refused.
- `libfiu/hash.c:165-169`, `libfiu/hash.c:206-210` and `libfiu/wtable.c:252-254` handle cases their comments
  call pathological. They cannot be reached: see `HashTables.HashTable.Get`, `HashTables.HashTable.Set`,
  `HashTables.HashTable.Del` and `WTables.WTable.Set`.

## Model

| member | source | states |
|---|---|---|
| Slots.ProbeStep | libfiu/hash.c:162 | the modular step of all three probe loops visits the circle from the home slot in order |
| Slots.ProbeOrder | libfiu/hash.c:147-162 | a key is looked for at hash + i modulo the table size, for i = 0, 1, 2, ... |
| Slots.CountsPartition | libfiu/hash.c:262-263 | live, removed and never-used slots add up to the table size |
| Slots.SpareSlot | libfiu/hash.c:165-169 | a table not filled by live and removed slots has a never-used slot, which ends every probe |
| Slots.LiveCountIsSize | libfiu/hash.c:85 | with unique keys the count of live slots is the number of keys |
| Slots.RepresentsOneMap | libfiu/hash.c:82-88 | a slot array stands for at most one map |
| Slots.ContentsOfRepresents | libfiu/hash.c:237-243 | with unique keys the live slots stand for exactly the map read off them |
| Slots.NeverEndsProbe | libfiu/hash.c:151-153 | a probe that stops at a never-used slot has proved that the key is nowhere in the table |
| Slots.MatchEndsProbe | libfiu/hash.c:154-157 | a live slot with the key holds the map's value for it |
| Slots.FullProbe | libfiu/hash.c:165-169 | a full circle without a match means that the key is absent and no slot is never-used |
| Slots.InsertFacts | libfiu/hash.c:184-192 | taking the never-used slot that ended the probe keeps probe paths and unique keys, adds the one binding, and touches no tombstone |
| Slots.OverrideFacts | libfiu/hash.c:193-199 | overriding in place rebinds one key and swaps one owned value |
| Slots.RemoveFacts | libfiu/hash.c:317-324 | a tombstone removes one binding and breaks no other key's probe path |
| HashTables.HashTable.constructor | libfiu/hash.c:99-123 | an empty table of minimum size, all slots never used |
| HashTables.HashTable.Occupancy | libfiu/hash.c:250-275 | between operations at least 30% of the slots are never used, and the size is 10 or at most 10/3 of the number of keys |
| HashTables.HashTable.RebuildCost | libfiu/hash.c:213-275 | all rebuilds so far scanned at most five old slots per set or delete |
| HashTables.HashTable.Free | libfiu/hash.c:125-140 | after hash_free every value ever accepted has been destroyed exactly once |
| HashTables.HashTable.Find | libfiu/hash.c:294-315 | the probe loop finds the key's slot exactly when the map has the key, and goes full circle only without a never-used slot |
| HashTables.HashTable.Get | libfiu/hash.c:142-170 | the map's answer, and the full-circle exit is unreachable in a balanced table |
| HashTables.HashTable.SetNoResize | libfiu/hash.c:172-211 | binds the key unless it is new and no slot is never used; destroys exactly an overridden value; writes one slot, never a tombstone |
| HashTables.HashTable.ResizeTable | libfiu/hash.c:213-248 | from any slots the new array holds only old entries; with unique keys that fit, the map, the owned values and every reinsertion are kept |
| HashTables.HashTable.AutoResizeTable | libfiu/hash.c:250-275 | rebuilds to twice the live entries exactly when less than 30% of the slots are never used, or less than 30% live in a table above 10; keeps the map, destroys nothing, and is charged for what it scans |
| HashTables.HashTable.Set | libfiu/hash.c:277-286 | always succeeds, binds the key, destroys exactly the overridden value, and keeps the whole invariant |
| HashTables.HashTable.Del | libfiu/hash.c:288-330 | reports whether the key was bound, unbinds and destroys exactly that value, never goes full circle |
| HashTables.HashTable.RemoveAt | libfiu/hash.c:317-324 | the removal itself: one binding less, one tombstone more, one value destroyed |
| HashRuns.Apply | libfiu/hash.c:142-330 | one operation answers as a finite map and accounts for every value |
| HashRuns.Run | libfiu/hash.c:125-330 | over every run: a finite map's answers, each value destroyed exactly once by the end, at most five slots scanned by rebuilds per set or delete |
| HashRuns.AnswersByHistory | libfiu/hash.c:142-330 | those answers from the operations alone: a get finds the value set last and not deleted since, a delete reports whether there is one |
| Caches.HitAfterStore | libfiu/hash.c:426-479 | after cache_set the key hits, keys sharing its home miss, all others are as before |
| Caches.Cache.constructor | libfiu/hash.c:347-364 | nothing cached, whatever value the uninitialised size has |
| Caches.Cache.Get | libfiu/hash.c:438-462 | reads the home slot only |
| Caches.Cache.Set | libfiu/hash.c:464-479 | writes the home slot only, over whatever it held |
| Caches.Cache.Invalidate | libfiu/hash.c:373-397 | no slot is live any more, at home or away from it |
| Caches.Cache.Resize | libfiu/hash.c:399-424 | growing keeps only old entries, wherever probing puts them, and all of them when keys are unique and fit; anything else empties the cache |
| Words.MulInjective | libfiu/hash.c:39-43 | multiplication by the odd constant is injective on 32-bit words |
| Words.FoldInjective | libfiu/hash.c:40-65 | x xor x >> k, for the three distances the hash folds by, is injective |
| Murmur.Compute | libfiu/hash.c:26-68 | the loop and the fall-through switch compute the recursive definition of the hash |
| Murmur.KnownHashes | libfiu/hash.c:26-68 | the hashes of eight short keys, as numbers, for every byte order and signedness of char |
| Murmur.WordInjective | libfiu/hash.c:37 | a block read as a word determines its four bytes, for either byte order |
| Murmur.TailInjective | libfiu/hash.c:50-59 | the bits mixed in for the last one to three bytes determine them, even with sign-extended chars |
| Murmur.MixBlockInjective | libfiu/hash.c:39-44 | mixing in a block is injective in the state and in the block |
| Murmur.FinishInjective | libfiu/hash.c:61-65 | the final mixing is injective |
| Murmur.NoBlockCollision | libfiu/hash.c:26-68 | two keys of one length that differ only inside one aligned four-byte block never collide |
| Murmur.NoTailCollision | libfiu/hash.c:26-68 | two keys of one length that differ only in the last one to three bytes never collide |
| Wildcards.PatternLanguage | libfiu/wtable.c:129-156 | `p*` accepts exactly the strings that are p followed by anything, and a name that does not end in `*` only itself |
| Wildcards.FirstMatchMeaning | libfiu/wtable.c:166-195 | the lookup finds something exactly when some pattern matches, and then the value of the first that does |
| Wildcards.FirstMatchOfLive | libfiu/wtable.c:268-277 | only the used entries and their order matter to a lookup |
| Wildcards.CompactionKeepsLookups | libfiu/wtable.c:257-294 | a resize to any sufficient size keeps the answer for every key, the order of the patterns and the owned values |
| Wildcards.CompactionKeepsKeys | libfiu/wtable.c:257-294 | a resize keeps patterns distinct, key lengths true and the same patterns bound |
| Wildcards.PutBinds | libfiu/wtable.c:228-250 | setting a pattern overrides its own entry if there is one and leaves every other pattern alone |
| Wildcards.PutPlace | libfiu/wtable.c:228-250 | a pattern goes to its own entry, or else to the first free one; no other entry moves |
| Wildcards.RemoveUnbinds | libfiu/wtable.c:322-337 | freeing an entry unbinds exactly its pattern |
| Wildcards.FreeWhenNotFull | libfiu/wtable.c:252-254 | with fewer used entries than slots there is a free entry |
| Wildcards.GrownFacts | libfiu/wtable.c:299-306 | growing by 30% plus one leaves two free entries, so the insertion that follows cannot fail; no lookup changes |
| Wildcards.ShrunkFacts | libfiu/wtable.c:339-345 | shrinking to three spare entries keeps the size bounds; no lookup changes |
| Wildcards.AfterSetFacts | libfiu/wtable.c:296-316 | after a set of a pattern: distinct keys, true lengths, used < size, size at most 11 or 60% used, values accounted for |
| Wildcards.AfterDelFacts | libfiu/wtable.c:318-356 | the same after a delete of a pattern |
| Wildcards.OthersKeepTheirAnswers | libfiu/wtable.c:296-356 | setting or deleting a pattern, resizes included, changes no answer for a key it does not cover; a covered key without an answer gets the new value |
| Wildcards.ResizedSizes | libfiu/wtable.c:299-345 | growing adds 30%, rounded down, and one; shrinking leaves three free entries and needs a size above 10, at least 7 entries and less than 60% use |
| WTables.StrLast | libfiu/wtable.c:115-127 | how far two strings agree, and that they differ there |
| WTables.WsMatches | libfiu/wtable.c:136-156 | exact equality, or agreement on everything before the `*`: the longer string may end there, even if it contains `*` |
| WTables.AgreesSubsumed | libfiu/hash.c:399-424 | a rebuilt cache is as truthful as the old one, though entries move off their home slots |
| WTables.WTable.constructor | libfiu/wtable.c:56-93 | an empty, consistent table |
| WTables.WTable.FreeTable | libfiu/wtable.c:95-113 | after wtable_free every value ever accepted has been destroyed exactly once |
| WTables.WTable.FindEntry | libfiu/wtable.c:158-195 | the exact entry or the first match, and the first free entry when there is none |
| WTables.WTable.Get | libfiu/wtable.c:197-222 | the exact entry, else the first matching pattern, else nothing, whatever the cache holds; the array is walked exactly when neither the exact names nor the cache know the key; afterwards every cached answer is still current and a key without an exact entry hits the cache |
| WTables.WTable.WildcardsSet | libfiu/wtable.c:224-255 | overrides or takes the first free entry; fails only when there is neither |
| WTables.WTable.ResizeTable | libfiu/wtable.c:257-294 | a stable compaction that destroys nothing; below the minimum size nothing happens |
| WTables.WTable.SetPattern | libfiu/wtable.c:298-313 | always succeeds; binds the pattern, destroys exactly an overridden value, keeps the cache truthful |
| WTables.WTable.DelPattern | libfiu/wtable.c:322-352 | unbinds the pattern, destroys exactly its value, keeps the cache truthful |
| WTables.WTable.Set | libfiu/wtable.c:296-316 | always succeeds; the names in force gain exactly this one, the overridden value alone is destroyed, and the cache stays truthful though exact names never invalidate it |
| WTables.WTable.Del | libfiu/wtable.c:318-356 | the names in force lose exactly this one, and its value alone is destroyed |
| WTables.PackStep | libfiu/wtable.c:271-277 | each reinsertion of a resize takes the next free entry, and never overrides |
| WTableRuns.Apply | libfiu/wtable.c:197-356 | one operation does to the whole table what it does to the table without a cache |
| WTableRuns.Run | libfiu/wtable.c:56-356 | over every run, whatever the hash and the leftover cache size: the answers of the table without a cache, and each value destroyed exactly once by the end |
| WTableRuns.AnswersByHistory | libfiu/wtable.c:197-356 | those answers from the operations alone: a get finds something exactly when a name set and not deleted since covers its key, and then such a one's value, the key's own first |
| WTableRuns.PlainTracksNames | libfiu/wtable.c:296-356 | after any run the hash and the array hold exactly the names set and not deleted, and the array is sound and within its bounds |
| WTableRuns.FirstMatchByNames | libfiu/wtable.c:197-222 | an array lookup finds the value of a covering pattern in force, or there is none |
| WTableRuns.LookupByNames | libfiu/wtable.c:197-222 | after any run a lookup finds something exactly when a name in force is the key or a pattern covering it, and then such a name's value, the exact one first |
| Prng.Generator.Randd | libfiu/fiu.c:223-228 | one draw advances the sequence by one and scales it to the unit interval |
| Prng.Generator.ProbFails | libfiu/fiu.c:336-339 | the point fails exactly when its probability exceeds the draw |
| Prng.FirstDraws | libfiu/fiu.c:223-228 | the first three draws from seeds 0 and 1, as numbers |
| Prng.GeometricDivisible | libfiu/fiu.c:225 | the multiplier's geometric sums are divisible by a power of two exactly when the number of terms is |
| Prng.StateReturns | libfiu/fiu.c:223-228 | modulo 2^k, for k up to 32, two states agree exactly when their distance is a multiple of 2^k |
| Prng.NoRepeat | libfiu/fiu.c:223-228 | within 2^k consecutive draws no residue modulo 2^k repeats |
| Prng.AllResidues | libfiu/fiu.c:223-228 | 2^k consecutive states have all 2^k residues |
| Prng.FullPeriod | libfiu/fiu.c:223-228 | each residue modulo 2^k is reached at exactly one of any 2^k consecutive draws, from any seed |
| Prng.FailureCount | libfiu/fiu.c:336-339 | of any 2^32 consecutive draws exactly ceil(p * 4294967295) fail, for p in the unit interval; for any other p that count is clamped to the draws there are |
| Prng.AlwaysAndNever | libfiu/fiu.c:337 | every draw fails if and only if p > 1, none if and only if p <= 0, and -1 never fails, against the header |
| EngineInvariants.CallStep | libfiu/fiu.c:293-307 | a call of fiu_fail anywhere keeps the invariant: the guard lets it near the lock only when its thread is outside the library |
| EngineInvariants.ProbeFinalsStep | libfiu/wtable.c:202-205 | the probe of the exact names keeps the invariant, with or without an initialised table |
| EngineInvariants.ProbeCacheStep | libfiu/wtable.c:207-209 | a reader that hits the cache leaves with the current answer and without a walk, and only then |
| EngineInvariants.WalkStep | libfiu/wtable.c:211-212 | a reader that walks the array leaves with the current answer |
| EngineInvariants.FillStep | libfiu/wtable.c:213-221 | a fill by a reader, with others reading, keeps every cached answer current |
| EngineInvariants.ResolveStep | libfiu/fiu.c:315-323 | taking a ONETIME point's mutex, or passing it by, keeps the invariant |
| EngineInvariants.CheckStep | libfiu/fiu.c:324-327 | leaving a point that has failed, or staying with its mutex, keeps the invariant |
| EngineInvariants.DecideStep | libfiu/fiu.c:332-351 | any decision of the method, with any failnum from a callback, keeps the invariant |
| EngineInvariants.FireStep | libfiu/fiu.c:365-373 | failing marks the point before the mutex is released |
| EngineInvariants.PassStep | libfiu/fiu.c:353-355 | not failing releases the mutex |
| EngineInvariants.ReleaseReadStep | libfiu/fiu.c:357-376 | the outcome recorded on release is the one the table and the point allow |
| EngineInvariants.CreateStep | libfiu/fiu.c:73-104 | a created point is live, not in the table, and no other thread's |
| EngineInvariants.SetExactStep | libfiu/wtable.c:314 | binding an exact name keeps the invariant, with the cache untouched and current; the name's old point, and no other, is destroyed |
| EngineInvariants.SetGrowStep | libfiu/wtable.c:299-306 | growing under the exclusive lock leaves room for the insertion and every cached answer current |
| EngineInvariants.ClearStep | libfiu/wtable.c:308-311 | the cache is emptied before the insertion that would make it stale |
| EngineInvariants.PutStep | libfiu/wtable.c:313 | the insertion of the pattern, after the cache was emptied, keeps the invariant; the pattern's old point, and no other, is destroyed |
| EngineInvariants.DelPatternStep | libfiu/wtable.c:322-337 | freeing the pattern's entry, with the cache still naming its point but nobody else inside, keeps the invariant; the name leaves force, and its point, and no other, is destroyed |
| EngineInvariants.ShrinkStep | libfiu/wtable.c:339-345 | shrinking brings the array to what the delete makes of the sequential table |
| EngineInvariants.DelDoneStep | libfiu/wtable.c:347-352 | after the invalidation no cached answer is stale and no destroyed point is cached |
| EngineInvariants.DelExactStep | libfiu/wtable.c:353-355 | unbinding an exact name keeps the invariant; the name leaves force, and its point, and no other, is destroyed |
| EngineInvariants.Step | libfiu/fiu.c:248-510 | every step of every thread keeps the whole invariant |
| EngineInvariants.InitialHolds | libfiu/fiu.c:112-116 | the invariant holds before fiu_init |
| EngineRuns.InvHolds | libfiu/fiu.c:248-510 | the invariant holds after any interleaving |
| EngineRuns.NoStaleCache | libfiu/wtable.c:197-222 | in every interleaving, whenever no writer is inside, every live cache slot, at home or not, holds the current array lookup of its key |
| EngineRuns.FillCarriesCurrentAnswer | libfiu/wtable.c:211-221 | between its walk and its fill a reader still carries the current answer, so no stale fill can follow an invalidation |
| EngineRuns.OneTimeFailsOnce | libfiu/fiu.c:322-378 | of all completed calls that resolved to one ONETIME point, through any names, at most one failed |
| EngineRuns.OneTimeDoesFail | libfiu/fiu.c:322-378 | once a call on an always-failing ONETIME point completes, some call has failed on it or is returning the failure |
| EngineRuns.OneTimeExactlyOnce | libfiu/fiu.c:322-378 | with no call in flight, exactly one of them failed |
| EngineRuns.NoUseAfterFree | libfiu/fiu.c:307-375 | every point a thread has looked up, holds or is about to insert is live |
| EngineRuns.FreedIsUnlocked | libfiu/fiu.c:106-111 | a mutex is never destroyed while it is held |
| EngineLifetimes.LiveExactlyWhenNeeded | libfiu/fiu.c:73-110 | in every interleaving a created point is live exactly while some name stands for it or its insertion is still to come: none is destroyed early, none is left behind |
| EngineRuns.CachedIsLive | libfiu/wtable.c:235-241 | outside the writers' sections every cached point is the live point of a pattern that covers the cached key |
| EngineRuns.CallsAreThoseMade | libfiu/fiu.c:293-307 | over every run the calls counted are the outermost calls of fiu_fail, in order, with the names they asked for |
| EngineRuns.EveryCallAnsweredOnce | libfiu/fiu.c:293-378 | every such call is in progress or on record, none is on record twice, and each record has the name its call asked for |
| EngineRuns.TableIsSequential | libfiu/wtable.c:296-356 | whenever no writer is inside, the shared table is what the sets and deletes, in lock order, make of the sequential table, within its size bounds |
| EngineRuns.CallsAreSequentialGets | libfiu/fiu.c:315 | every completed call found what a get of the sequential table returns at one point of that order, with the names then in force |
| EngineRuns.CallsFindTheNamesInForce | libfiu/wtable.c:116-222 | a completed call found a point exactly when a name then in force covers its own, and then such a name's point, the exact one first |
| EngineRuns.CompletedCall | libfiu/fiu.c:293-378 | a completed call returned 0, or a failnum the point it found has had, which is the one it was enabled with unless an external callback may change it; an always-failing point fails every call unless it is ONETIME |
| EngineRuns.CallsFailWhenCovered | libfiu/fiu.c:293-378 | after any history of always-failing, not ONETIME points with non-zero failnums, fiu_fail is non-zero exactly when an enabled name or prefix covers the name, and is that point's failnum |
| EngineRuns.GuardRestored | libfiu/fiu.c:135-148 | in every reachable state rec_count is one inside the library plus the nesting depth, and 0 outside |
| EngineRuns.NestedCallsAreInert | libfiu/fiu.c:298-305 | calls of fiu_fail from inside the library, to any depth, touch no lock, no point and not the table; each returns 0 and is undone by its return |
| EngineOrder.CallsInRealTime | libfiu/fiu.c:293-378 | a call is answered with every set and delete that took effect before it was made behind it, and none that takes effect after it is on record |
| EngineOrder.CallNumber | libfiu/fiu.c:293-307 | a call made in a state is numbered by the calls made before it, which is how the other statements name it |
| EngineOrder.SectionIsOneOp | libfiu/wtable.c:296-356 | between taking and releasing the exclusive lock a thread performs exactly the set or delete it came for, and no other thread performs any; after an initialising section the table is there |
| EngineOrder.CallsSeeEarlierWrites | libfiu/fiu.c:293-404 | a call made after a writer has released the lock is answered with that writer's set or delete behind it |
| EngineOrigins.TableComesFromInit | libfiu/fiu.c:244-281 | over every run the table is there exactly when some thread has done the write of an fiu_init, inside its section or before it left it |
| EngineOrigins.CreateOrigin | libfiu/fiu.c:73-104 | pf_create gives the point, field by field, the name, method, ONETIME flag and failnum its caller passed |
| EngineOrigins.PointsComeFromEnables | libfiu/fiu.c:73-104 | over every run each point has the name, method, flag and, but for external callbacks, the failnum of an enabling call of the run |
| EngineOrigins.OnePointPerEnable | libfiu/fiu.c:406-494 | over every run the points made, and the enabling calls that have not made theirs yet, are as many as the enabling calls |
| EngineOrigins.NoMoreFailuresThanEnables | libfiu/fiu.c:322-378 | when every enabling of a run is ONETIME, the calls that failed in the whole run, in any interleaving, are no more than the enabling calls |
| EngineProgress.NoDeadlock | libfiu/fiu.c:293-404 | in every reachable state with a call in progress some thread can move, across the read/write lock and all the mutexes, even if waiting writers hold up new readers |
| EngineProgress.CallsComplete | libfiu/fiu.c:293-404 | without new calls every run is no longer than the work that was left, so all calls complete |
| EngineSolo.PerformKeeps | libfiu/fiu.c:248-510 | any steps of one thread on its own keep the invariant |
| EngineSolo.CompletesAlone | libfiu/fiu.c:248-510 | a thread with nobody else inside can run any call to its end |
| EngineSolo.InitAlone | libfiu/fiu.c:244-281 | fiu_init on its own, on every run of it to the end: the table is there and everything else is as it was; a second call changes nothing |
| EngineSolo.EnableAlone | libfiu/fiu.c:390-417 | pf_create and insert_pf on their own, on every run of them to the end: the name is bound to a new point with, field by field, the name, method, flag and failnum asked for, not failed, not locked; the point it replaces is destroyed, nothing else changes, locks and rec_count are back |
| EngineSolo.DisableAlone | libfiu/fiu.c:497-511 | fiu_disable on its own, on every run of it to the end: the name is unbound, its point, if any, is destroyed, nothing else changes |
| EngineSolo.FailAlone | libfiu/fiu.c:293-378 | fiu_fail on its own, with other readers about, before or after fiu_init, on every run of it to the end: it finds what a lookup finds, decides by the point's method unless a ONETIME point has failed, returns and records that failnum, marks that point, leaves the cache able to answer by itself, and changes nothing else |
| EngineUse.EnabledFailsUntilDisabled | libfiu/fiu.c:293-511 | enabled, a name fails every key it covers with its failnum, each time or only the first time if ONETIME; disabled again, it fails none |
| EngineUse.FirstUse | libfiu/fiu.c:244-511 | from a fresh start a program can initialise, enable, see two calls answered so, disable, and see a call pass |
| EngineUse.AnyCallStarts | libfiu/fiu.c:244-511 | a thread outside the library may start any call, the control API once the table is there |
| EngineUse.ReadersEnter | libfiu/fiu.c:307 | a call of fiu_fail is kept out by a writer and by nothing else, so any number of threads read at once |
| EngineUse.AnyDecision | libfiu/fiu.c:332-351 | an always-failing point fails, any other may fail or not, and only an external callback may leave another failnum |
| EngineUse.NestedCallsAnywhere | libfiu/fiu.c:298-305 | a thread inside the library may call fiu_fail again at any place |
| EngineUse.AnyResize | libfiu/hash.c:399-424 | a resize of the cache may leave any of its entries anywhere, or none, in a cache of any size |
| EngineUse.AnyThreadsStart | libfiu/fiu.c:112-116 | any set of threads, and any cache with nothing live, make a start |
| Numbers.NumbersReadBack | bindings/python/fiu_ctrl.in.py:50-52 | what atoi and strtoul make of any printed integer: itself, nothing, or a saturated or wrapped value |
| Numbers.NumberInText | libfiu/fiu-rc.c:144-148 | blanks before a number and anything but a digit after it are ignored, a plus sign changes nothing, and text without a number counts as 0 |
| Commands.TokenThenRest | libfiu/fiu-rc.c:92-99 | a delimiter-free token is cut whole, and the rest is what follows its delimiter |
| Commands.EnvironmentControl.RunRawCmd | bindings/python/fiu_ctrl.in.py:147-149 | appends one line |
| Commands.EnvironmentControl.MakeBasicArgs | bindings/python/fiu_ctrl.in.py:46-56 | the common arguments in order, with absent and zero numbers left out |
| Commands.EnvironmentControl.Enable | bindings/python/fiu_ctrl.in.py:58-61 | appends the enable line |
| Commands.EnvironmentControl.EnableRandom | bindings/python/fiu_ctrl.in.py:63-69 | appends the enable_random line, with the probability's text last |
| Commands.EnvironmentControl.EnableStackByName | bindings/python/fiu_ctrl.in.py:71-89 | appends the enable_stack_by_name line |
| Commands.EnvironmentControl.Disable | bindings/python/fiu_ctrl.in.py:91-93 | appends the disable line |
| Commands.FiuRcString | libfiu/fiu-rc.c:79-192 | the buffer, the two tokens, the option loop with its variables and the dispatch compute the grammar's parse, errors and undefined numbers included |
| Commands.FiuRunInit | preload/run/run.c:33-51 | the split and the loop make the calls of the lines in order, up to the first line in error or call that fails |
| RoundTrips.AcceptJoined | libfiu/fiu-rc.c:140-169 | the option loop on a joined list accepts its elements one by one |
| RoundTrips.AcceptCommand | libfiu/fiu-rc.c:140-169 | the options of a printed command leave the parser's variables as its arguments say |
| RoundTrips.ParseLine | libfiu/fiu-rc.c:79-192 | parsing a printed line gives back its call |
| RoundTrips.RoundTrip | preload/run/run.c:33-51 | splitting and parsing the printed environment of any list of well-formed commands makes their calls in order, up to the first that fails |
| RoundTrips.UpToFailureMeaning | preload/run/run.c:39-49 | the calls made are a prefix of those asked for; each but the last succeeded, and if some were not made the last one failed |
| RoundTrips.ErrorEndsTheRun | preload/run/run.c:39-49 | after a line in error no line is read |
| RoundTrips.AllMade | preload/run/run.c:39-49 | when every call succeeds, all are made |
| RoundTrips.FaithfulWhen | libfiu/fiu-rc.c:112-118 | a line carries its arguments exactly as given if and only if the failnum is not 0 and the stack position not below -1 |
| RoundTrips.ZeroFailnumBecomesOne | bindings/python/fiu_ctrl.in.py:49-50 | a line asked for with failnum 0 enables with failnum 1 |
| RoundTrips.LowPositionBecomesMinusOne | bindings/python/fiu_ctrl.in.py:87-88 | a line asked for with stack position -2 enables with -1 |
| RoundTrips.ParseAnyLine | libfiu/fiu-rc.c:79-192 | what a printed line of any length parses to: the options that fit the buffer and the prefix of the first that does not |
| RoundTrips.LongNamesLoseTheRest | libfiu/fiu-rc.c:85-86 | for all four commands, a name that fills the buffer loses its end and all the other arguments, which fall back to their defaults |
| RoundTrips.LongNamesAreCut | libfiu/fiu-rc.c:85-86 | what becomes of a disable line of any length: the name loses what lies past 511 characters |
| CommandLines.ParseSettings | libfiu/fiu-rc.c:79-192 | each of the four commands, with its options in any order and any number of times, makes its call; of several options of one kind the last counts, and one that is missing has its default |
| CommandLines.ParseEnableRandom | libfiu/fiu-rc.c:179-182 | an enable_random line calls fiu_enable_random with its name, numbers, flag and probability text |
| CommandLines.NoCall | libfiu/fiu-rc.c:164-191 | a verb that is none of the four, an option that is none of the seven, or a number left out, anywhere in the line, makes no call |
| CommandLines.MissingName | libfiu/fiu-rc.c:142-163 | a name or a function name without a value is handed on as NULL, in place of an earlier one |
| CommandLines.BlanksDoNotMatter | libfiu/fiu-rc.c:92-107 | blanks and tabs in any amount, before, between and after the two words, and anything after the second, change nothing |
| CommandLines.NothingToDo | libfiu/fiu-rc.c:92-107 | a line of blanks and a verb by itself are errors |
| CommandLines.NewlinesDoNotMatter | preload/run/run.c:38-48 | newlines in any amount, before and between lines, and a missing last one change nothing |
| RoundTrips.Deliver | bindings/python/fiu_ctrl.in.py:46-149 | from the Python object to the calls of the control API: the same calls, arguments and order |
| Ferrors.HexReadsBack | preload/posix/modules/posix.custom.c:223-226 | the hexadecimal form of an address determines it |
| Ferrors.KnownHex | preload/posix/modules/posix.custom.c:223-226 | two addresses in lower-case hexadecimal |
| Ferrors.KeysInjective | preload/posix/modules/posix.custom.c:218-226 | the key always fits its buffer, and different streams have different keys |
| Ferrors.MarkedNext | preload/posix/modules/posix.custom.c:190-216 | how one event changes which streams are marked |
| Ferrors.MarkLaws | preload/posix/modules/posix.custom.c:190-364 | an injected error marks; clearerr, and an fclose that reaches libc, unmark; an fclose that fails by injection, any ferror and any event on another stream change nothing |
| Ferrors.FerrorState.SetFerror | preload/posix/modules/posix.custom.c:228-243 | marks exactly this stream |
| Ferrors.FerrorState.GetFerror | preload/posix/modules/posix.custom.c:245-260 | tells whether this stream is marked, and marks nothing |
| Ferrors.FerrorState.ClearFerror | preload/posix/modules/posix.custom.c:262-275 | unmarks exactly this stream |
| Ferrors.FerrorState.Ferror | preload/posix/modules/posix.custom.c:278-299 | 1 by its own injection, else libc's answer, else 1 for a marked stream |
| Ferrors.FerrorState.Clearerr | preload/posix/modules/posix.custom.c:307-321 | unmarks the stream |
| Ferrors.FerrorState.Fclose | preload/posix/modules/posix.custom.c:324-364 | -1 by its own injection, leaving every mark; otherwise libc's answer, with this stream unmarked |
| Ferrors.Apply | preload/posix/modules/posix.custom.c:228-364 | one event answers by the marks and changes them as events do |
| Ferrors.Run | preload/posix/modules/posix.custom.c:218-364 | over every run of outermost calls ferror is non-zero exactly when its own point fires, libc says so, or the stream had an injected error after it was last cleared; fclose is -1 when its own point fires and libc's answer otherwise |

## Left out

- The key hash inside the tables: every table theorem holds for an arbitrary hash function, and MurmurHash2 is modelled beside them.
- Rounding: the load tests `< 0.3` and `< 0.6` and the growth `* 1.3` are exact integer tests, and probabilities and draws are real numbers. The C code uses float and double, which agree for the table sizes it is meant for.
- The `int` loop counters and `size_t` sizes are unbounded integers: tables of 2^31 slots and more are not modelled.
- Allocation failures, the key strings' own memory, and the key copy that hash_set leaks on an override.
- Destroyed points get no new address: the engine's point identifiers are never reused.
- The cache's own read/write lock: a cache read or write by a reader is one step of the engine, and cache_invalidate and cache_resize run under the exclusive table lock anyway.
- Weak memory: the engine's steps are sequentially consistent.
- EngineRuns.OneTimeFailsOnce: callbacks that clear or set the ONETIME flag are excluded, as are callbacks that enable or disable points.
- EngineProgress.NoDeadlock: says that some thread can move, not that every waiting thread is served; fairness is the pthread library's.
- Stack-based failure (`libfiu/backtrace.c`, `should_stack_fail`, the checks of `fiu_enable_stack`): an arbitrary decision in the engine; the calls that probe the platform are not modelled.
- The results of `fiu_enable` and `fiu_disable` in the engine: they are those of `WTables.WTable.Set` and `WTables.WTable.Del`.
- `fiu_failinfo` and the thread-specific value behind it.
- Several threads drawing from the generator at once: its properties are stated for one sequence of draws.
- `fiu_set_prng_seed` by the environment or the clock, and reseeding after fork: the seed is any 32-bit word.
- The numbers behind a probability's text: `%f` prints six digits, which loses the value, and `strtod` reads it; between them the text is carried as it stands.
- The remote-control pipes and threads (`libfiu/fiu-rc.c:29-62`, `libfiu/fiu-rc.c:194-346`) and rec_count's use there.
- `strtok_r` and `getsubopt` stand for their descriptions in POSIX.1-2008, and `atoi`, `strtoul` and `strtod` for those in ISO C99; a missing or out-of-range number, which C leaves undefined, is its own outcome.
- `pthread_once` and the mutex around the stream table: the stream events are one sequence of outermost calls.
- Which libc functions mark a stream (`preload/posix/codegen.h:173-189`): an injected error is an event of its own.
- The wrapper generator, the shell utilities, the Python module around the C library, and the build.
