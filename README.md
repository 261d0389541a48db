# RMStateCopy, modelled in Dafny

RMStateCopy is a command-line tool. It copies the recovery state of a YARN
ResourceManager from one state-store backend (file system, ZooKeeper, null
or in-memory) into another. It takes two store nicknames, a source and a
destination. It refuses to run unless there are exactly two, both are in the
fixed table `{fs, zk, null, mem}`, and they differ. It then opens both stores
and stamps the destination with the store version. It loads the source's
full snapshot and replays it into the destination in a fixed order:

1. the AM-RM token secret state, written once with `isUpdate = false`;
2. every application, followed by its attempts `1 .. attemptCount`;
3. every delegation token, with its renew date and its own sequence number;
4. every master key.

It then stops the source, and then the destination. Any failure exits with
status 1.

This project models that tool:

- `Records.dfy` holds the snapshot values. Application, attempt, token and
  key payloads are opaque types, because the copy passes them through
  unchanged.
- `StoreNames.dfy` holds the nickname table and the argument checks, as pure
  functions.
- `StateStore.dfy` holds the store abstraction.
  - A `RMStateStore` class has one field per kind of state: version flag,
    applications, attempts, AM-RM token slot, tokens, master keys, running
    token sequence number, stopped flag.
  - A `Journal` object is shared by both stores of a run. Every store call
    appends an `Event(store, call)` to it, so the order of calls across the
    two stores can be stated and checked.
- `CopyPlan.dfy` describes, as values, the calls the copy makes for a given
  visiting order, and what those calls leave in a store. Its lemmas cover:
  - which applications are written;
  - the attempt numbers written;
  - how many writes there are;
  - that each application is written before its attempts;
  - that the stored records match the source.
- `CopyRun.dfy` describes one whole run, aborted or completed: its calls
  (`RunEvents`) and what the destination holds at the end (`CopiedContent`).
  Its lemmas cover the phase order, the role of each store, the call
  counts, the destination's final contents, the round trip back through
  `loadState`, and the sequence-number gap.
- `RMStateCopy.dfy` holds the copy engine and the entry point, as methods
  with loops and invariants. Each method's postcondition ties the journal
  and the stores' new contents to the functions of `CopyPlan` and `CopyRun`.

Hash-map and hash-set iteration order is unspecified. `Iteration` returns
some enumeration of the collection, and every method hands back, as a ghost
result, the order it took. All the lemmas hold for every order.

Three behaviours of the code are worth knowing:

- **Missing attempts.** `AttemptCount()` is the size of an application's
  attempt map, and `getAttempt` is a lookup in that map. If an application
  has no attempt under some number `i + 1 <= attemptCount`, the attempt
  record is built from a missing attempt. That throws, so the copy stops
  right there and `main` exits 1. The stores are then never closed, since
  there is no `finally`. `CopyAppState` returns `false` in that case, and
  `AbortedAt` describes how far the copy got.
- **Tokens before keys.** The code writes the delegation tokens before the
  master keys (`RMStateCopy.java:177-186`). The model follows the code.
- **The running sequence number.** `storeRMDelegationTokenAndSequenceNumber`
  receives each token's own sequence number. The model takes that number as
  the store's new running counter, as the call's name says. The source
  snapshot's counter is read (`seqNo`, line 170) but never passed on; the
  source marks this with a TODO. `CopyRun.SequenceNumberFallsBehind` shows
  the result: the destination's counter can end below the source's.

## Model

Source paths are relative to the repository root.

| member | source | states |
|---|---|---|
| StoreNames.NickName | src/main/java/org/apache/hadoop/yarn/server/resourcemanager/recovery/RMStateCopy.java:36-43 | every store implementation has a nickname in the table, and the table maps that nickname back to it |
| StoreNames.NickNameRoundTrip | src/main/java/org/apache/hadoop/yarn/server/resourcemanager/recovery/RMStateCopy.java:38-43 | the table is a bijection: checking the nickname of a store gives that store back, and a nickname is accepted as a store exactly when it is that store's nickname |
| StoreNames.CheckNickName | src/main/java/org/apache/hadoop/yarn/server/resourcemanager/recovery/RMStateCopy.java:66-70 | a nickname is accepted iff it is one of fs, zk, null, mem (so the empty string is rejected); the accepted store is the one the nickname names; a rejection names the offending nickname |
| StoreNames.ValidateArgs | src/main/java/org/apache/hadoop/yarn/server/resourcemanager/recovery/RMStateCopy.java:84-97 | accepted iff there are exactly two arguments, both valid and different; the selected stores differ and are the ones the arguments name; otherwise the first failing check in source order (usage, source nickname, destination nickname, same stores) is the rejection |
| StoreNames.DistinctNickNamesDistinctStores | src/main/java/org/apache/hadoop/yarn/server/resourcemanager/recovery/RMStateCopy.java:92-96 | for two valid nicknames, string equality coincides with equality of the stores they select, so the string test rejects exactly a copy of a store onto itself |
| StateStore.LoadAfterStoreVersion | src/main/java/org/apache/hadoop/yarn/server/resourcemanager/recovery/RMStateCopy.java:117-120 | the version stamp written before the load does not show in the loaded snapshot |
| StateStore.LoadAfterStoreApplication | src/main/java/org/apache/hadoop/yarn/server/resourcemanager/recovery/RMStateCopy.java:150 | after an application write, a load returns that application with the new record and the attempts already stored under it, and every other application as before |
| StateStore.LoadAfterStoreAttempt | src/main/java/org/apache/hadoop/yarn/server/resourcemanager/recovery/RMStateCopy.java:158-159 | after an attempt write, a load returns the attempt under its stored application, every other application as before, and nothing new when its application is not stored |
| StateStore.LoadAfterStoreAMRMToken | src/main/java/org/apache/hadoop/yarn/server/resourcemanager/recovery/RMStateCopy.java:165 | after the AM-RM token write, a load returns that state and everything else as before |
| StateStore.LoadAfterStoreToken | src/main/java/org/apache/hadoop/yarn/server/resourcemanager/recovery/RMStateCopy.java:181 | after a token write, a load returns the token with the written renew date and the written number as the running sequence number, and everything else as before |
| StateStore.LoadAfterStoreMasterKey | src/main/java/org/apache/hadoop/yarn/server/resourcemanager/recovery/RMStateCopy.java:185 | after a master-key write, a load returns the keys with that key added, and everything else as before |
| StateStore.RMStateStore.StoreVersion | src/main/java/org/apache/hadoop/yarn/server/resourcemanager/recovery/RMStateCopy.java:117 | sets the version flag, changes nothing else and records the call |
| StateStore.RMStateStore.LoadState | src/main/java/org/apache/hadoop/yarn/server/resourcemanager/recovery/RMStateCopy.java:120 | returns the snapshot of the store's contents, leaves the contents unchanged and records the call |
| StateStore.RMStateStore.StoreApplicationStateInternal | src/main/java/org/apache/hadoop/yarn/server/resourcemanager/recovery/RMStateCopy.java:150 | stores the application record under its id, changes nothing else and records the call |
| StateStore.RMStateStore.StoreApplicationAttemptStateInternal | src/main/java/org/apache/hadoop/yarn/server/resourcemanager/recovery/RMStateCopy.java:158-159 | stores the attempt record under its attempt id, changes nothing else and records the call |
| StateStore.RMStateStore.StoreOrUpdateAMRMTokenSecretManagerState | src/main/java/org/apache/hadoop/yarn/server/resourcemanager/recovery/RMStateCopy.java:165 | overwrites the AM-RM token slot, changes nothing else and records the call with its isUpdate flag |
| StateStore.RMStateStore.StoreRMDelegationTokenAndSequenceNumber | src/main/java/org/apache/hadoop/yarn/server/resourcemanager/recovery/RMStateCopy.java:181 | stores the token with its renew date and the passed number, makes the passed number the running counter, changes nothing else and records the call |
| StateStore.RMStateStore.StoreRMDTMasterKey | src/main/java/org/apache/hadoop/yarn/server/resourcemanager/recovery/RMStateCopy.java:185 | adds the key to the key set, changes nothing else and records the call |
| StateStore.RMStateStore.Stop | src/main/java/org/apache/hadoop/yarn/server/resourcemanager/recovery/RMStateCopy.java:190 | sets the stopped flag, leaves the contents unchanged and records the call |
| RMStateCopy.GetStateStore | src/main/java/org/apache/hadoop/yarn/server/resourcemanager/recovery/RMStateCopy.java:51-59 | returns a new, started store of the selected kind, holding what its backend holds and writing to the run's journal |
| RMStateCopy.Iteration | src/main/java/org/apache/hadoop/yarn/server/resourcemanager/recovery/RMStateCopy.java:145 | a for-each loop visits each element of the collection exactly once, in some order |
| RMStateCopy.CopyAMRMTokenState | src/main/java/org/apache/hadoop/yarn/server/resourcemanager/recovery/RMStateCopy.java:164-166 | the destination's AM-RM token slot becomes the given state, nothing else changes, and one store call with isUpdate false is recorded |
| RMStateCopy.CopyAppState | src/main/java/org/apache/hadoop/yarn/server/resourcemanager/recovery/RMStateCopy.java:142-162 | succeeds iff every application holds attempts 1 to its count; on success every application is visited once; on failure the visit stops at the first application with a gap; the journal gains exactly the application-phase calls of the visited applications; the destination gains their records and their attempts 1 .. Numbered |
| RMStateCopy.CopyApplication | src/main/java/org/apache/hadoop/yarn/server/resourcemanager/recovery/RMStateCopy.java:146-160 | writes the application record, then attempts 1, 2, ... up to the count or to the first missing number; succeeds iff none is missing |
| RMStateCopy.CopyRMDTState | src/main/java/org/apache/hadoop/yarn/server/resourcemanager/recovery/RMStateCopy.java:168-187 | every token is written once, then every master key once; the destination gains every token with its renew date and own number; its counter becomes the last token's number; it gains every key |
| RMStateCopy.CopyTokens | src/main/java/org/apache/hadoop/yarn/server/resourcemanager/recovery/RMStateCopy.java:177-182 | every token is written once, with its renew date and its own sequence number |
| RMStateCopy.CopyMasterKeys | src/main/java/org/apache/hadoop/yarn/server/resourcemanager/recovery/RMStateCopy.java:184-186 | every master key is written once |
| RMStateCopy.CloseStore | src/main/java/org/apache/hadoop/yarn/server/resourcemanager/recovery/RMStateCopy.java:189-191 | the store is stopped, its contents are unchanged, and one stop call is recorded |
| RMStateCopy.CopyStateStores | src/main/java/org/apache/hadoop/yarn/server/resourcemanager/recovery/RMStateCopy.java:109-139 | two distinct new stores are opened, and the loaded state is the source's snapshot; the run completes iff every application's attempts are numbered; the journal gains exactly that run's calls in order; the source's contents are unchanged; the destination holds `CopiedContent`; both stores are stopped iff the run completed |
| RMStateCopy.Run | src/main/java/org/apache/hadoop/yarn/server/resourcemanager/recovery/RMStateCopy.java:84-106 | the exit status is 0 or 1; rejected arguments give exit 1 before any store is opened or called; accepted arguments give exit 0 iff the source's attempts are all numbered; on exit 0 the visiting orders list every application, token and key of the source snapshot once, on exit 1 the applications visited stop at the first one with a gap; the calls made are exactly the run's `RunEvents` for those orders |
| CopyRun.RunPhasesOrdered | src/main/java/org/apache/hadoop/yarn/server/resourcemanager/recovery/RMStateCopy.java:117-138 | the calls of a run never go back a phase: version stamp, load, AM-RM token, applications and attempts, tokens, master keys, stop of the source, stop of the destination |
| CopyRun.RunRoles | src/main/java/org/apache/hadoop/yarn/server/resourcemanager/recovery/RMStateCopy.java:117-138 | the run starts with the destination's version stamp, the source's load and the AM-RM token write (isUpdate false); there is no other version stamp or AM-RM token write; every call goes to one of the two stores; the source receives only the load and a stop; each token write passes that token's own sequence number; a completed run ends by stopping the source, then the destination; an aborted run stops neither |
| CopyRun.RunCounts | src/main/java/org/apache/hadoop/yarn/server/resourcemanager/recovery/RMStateCopy.java:142-186 | a completed run makes 5 calls besides one per application, one per attempt up to each count, one per token and one per master key |
| CopyRun.CopiedContentMeaning | src/main/java/org/apache/hadoop/yarn/server/resourcemanager/recovery/RMStateCopy.java:109-139 | after a completed run the destination is version-stamped and holds the source's AM-RM token state, every source application with its record, every source attempt with its record, every token with its renew date and own number, and every key; its own applications under other ids are kept, and its own tokens and keys stay |
| CopyRun.CopyRoundTrip | src/main/java/org/apache/hadoop/yarn/server/resourcemanager/recovery/RMStateCopy.java:109-139 | copying into a never-written store and loading it back gives the same applications with the same attempts, AM-RM token state, tokens and master keys; the running counter comes back as the last copied token's number (0 when there are none), not the source's |
| CopyRun.SequenceNumberFallsBehind | src/main/java/org/apache/hadoop/yarn/server/resourcemanager/recovery/RMStateCopy.java:169-181 | the source's running sequence number does not affect the destination, and when the last token visited was minted below it, the destination's counter ends below the source's |
| CopyPlan.NumberedIffContiguous | src/main/java/org/apache/hadoop/yarn/server/resourcemanager/recovery/RMStateCopy.java:154-157 | an application's attempts are all copied exactly when attempts 1 to the count are all present |
| CopyPlan.NumberedAttemptsExact | src/main/java/org/apache/hadoop/yarn/server/resourcemanager/recovery/RMStateCopy.java:154-157 | when they are, the attempt map holds exactly attempts 1 to the count of that application and nothing else |
| CopyPlan.AppsCallsWriteApplications | src/main/java/org/apache/hadoop/yarn/server/resourcemanager/recovery/RMStateCopy.java:145-150 | the application writes of the phase are exactly the visited applications, in visiting order, one each |
| CopyPlan.AppsCallsNumberAttempts | src/main/java/org/apache/hadoop/yarn/server/resourcemanager/recovery/RMStateCopy.java:154-159 | for each visited application, exactly its attempts 1, 2, ..., Numbered are written, in increasing order; none is written for an application not visited |
| CopyPlan.AppsCallsCountAttempts | src/main/java/org/apache/hadoop/yarn/server/resourcemanager/recovery/RMStateCopy.java:154-159 | the attempt writes of the phase sum the attempts written per application |
| CopyPlan.SumNumberedAllNumbered | src/main/java/org/apache/hadoop/yarn/server/resourcemanager/recovery/RMStateCopy.java:154 | when every attempt is numbered, that sum is the sum of the attempt counts |
| CopyPlan.AppsCallsLength | src/main/java/org/apache/hadoop/yarn/server/resourcemanager/recovery/RMStateCopy.java:145-160 | the phase makes one call per visited application plus one per attempt written |
| CopyPlan.AppsCallsParentBeforeChild | src/main/java/org/apache/hadoop/yarn/server/resourcemanager/recovery/RMStateCopy.java:149-159 | every attempt write comes after a write of that attempt's application |
| CopyPlan.AppsCallsWithinCount | src/main/java/org/apache/hadoop/yarn/server/resourcemanager/recovery/RMStateCopy.java:154-159 | every call of the phase writes a visited application or one of its present attempts numbered 1 to its count, with that attempt's own record; no attempt above the count is written |
| CopyPlan.AppCallsObserved | src/main/java/org/apache/hadoop/yarn/server/resourcemanager/recovery/RMStateCopy.java:149-160 | the calls for one application write that application once and its attempts 1 .. Numbered, and nothing for any other application |
| CopyPlan.AppRecordsMeaning | src/main/java/org/apache/hadoop/yarn/server/resourcemanager/recovery/RMStateCopy.java:149-150 | the application writes leave exactly the visited applications stored, each with its source record |
| CopyPlan.AttemptRecordsMeaning | src/main/java/org/apache/hadoop/yarn/server/resourcemanager/recovery/RMStateCopy.java:155-159 | the attempt writes of one application leave exactly its attempts 1 to n stored, each with its source record |
| CopyPlan.CopiedAttemptsMeaning | src/main/java/org/apache/hadoop/yarn/server/resourcemanager/recovery/RMStateCopy.java:145-160 | the attempt writes of the phase leave exactly the copied attempts stored, each with its source record |
| CopyPlan.TokenEntriesMeaning | src/main/java/org/apache/hadoop/yarn/server/resourcemanager/recovery/RMStateCopy.java:177-182 | the token writes leave exactly the visited tokens stored, each with its renew date and its own sequence number |
| CopyPlan.KeySetMeaning | src/main/java/org/apache/hadoop/yarn/server/resourcemanager/recovery/RMStateCopy.java:184-186 | the key writes leave exactly the visited keys stored |

## Left out

- Hadoop configuration, store-class lookup through the factory, and `init`/`start` (lines 51-59). These are library calls. A store is modelled as a new started handle on the contents its backend holds. Those contents are a parameter of the run, so the model does not create them.
- Logging and its configuration (lines 45-49 and every `LOG` call). These are I/O. `configureLogging` failing, which would also exit 1, is not modelled.
- The text `die` prints and the `System.exit` call (lines 61-64). Both are reduced to a rejection reason and exit status 1.
- `RMStateStore.java` and its backends (file system, ZooKeeper, null, memory) are not part of this model. Every backend is one abstract store that keeps what it is written. It does not model their encodings, or the null store discarding its writes.
- `ApplicationStateData.newInstance` and `ApplicationAttemptStateData.newInstance` are not modelled. The records pass through unchanged as opaque values. The one failure modelled is building an attempt record from a missing attempt.
- Failures of store I/O (initialisation, load, write or stop throwing) are not modelled. Only a missing attempt fails the run.
- Java `int` and `long` widths: attempt numbers, sequence numbers and renew dates are unbounded integers, and the loop counter cannot overflow in the model.
- Hash iteration order is a parameter. The model makes no claim about the order across applications, tokens or keys.
- The parallel-copy TODO (line 141) is not implemented in the source, so it is not modelled.
- RMStateCopy.CopyApplication: the body of the application loop (lines 146-160) is a method of its own. Likewise, the token and key loops of `copyRMDTState` are `CopyTokens` and `CopyMasterKeys`, which `CopyRMDTState` calls in the same order. This keeps each proof small. It does not change the calls made or their order.
