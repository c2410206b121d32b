# Continuation registry of RIFE2, modelled in Dafny

This project models the continuation manager of RIFE2
(`rife.continuations.ContinuationManager`). It is a registry from string
identifiers to suspended continuation contexts. It has:

- a time-to-live: a context is expired once `start <= now - duration`;
- lazy eviction: a lookup that finds an expired context removes it and reports nothing;
- a resume protocol: the stored context is either reused (same object, fresh
  identifier, old identifier gone) or cloned (a copy under a fresh identifier,
  original kept);
- a purge sweep, launched from a resume when a random draw from `[0, scale)` is at
  most the purge frequency. It removes every expired entry, either by collecting
  the expired ids and then removing them or, after a concurrent-modification
  failure, with an in-place `removeIf`.

Files:

- `options.dfy`: `Options.Option`, standing for Java's nullable references.
- `contexts.dfy`: `Contexts.ContinuationContext`, a class, because the manager
  keeps the same object on reuse and `resetId` changes its id field in place.
  `Contexts.Continuable` is the opaque captured execution, with a flag saying
  whether it is a `CloneableContinuable`.
- `expiry.dfy`: the pure rules. These are the expiry test, the registry a sweep
  leaves (`Live`), the key-equals-id invariant (`KeyedById`), and the purge trigger
  together with the count of draws that fire it.
- `manager.dfy`: `Continuations.ContinuationManager`, a class with a
  `contexts: map<string, ContinuationContext>` field. Its methods update that map
  as the Java methods update `contexts_`. `Valid()` is the invariant that every key
  maps to a context whose id is that key. Every method keeps it.
- `scenarios.dfy`: client methods that drive the manager through its contracts.
  They cover a 100 ms time-to-live, an identifier consumed by reuse, a clone that
  keeps the original, and a sweep that always fires.

Inputs that the Java code takes from its environment are parameters:

- `now` replaces `System.currentTimeMillis()`;
- `draw` replaces `ThreadLocalRandom.nextInt(scale)`;
- `newId` is the identifier `resetId` generates. It is required not to be a current key;
- `throws` says whether the continuable's `clone()` raises `CloneNotSupportedException`;
- `raced` says whether the sweep's scan hit a `ConcurrentModificationException`.

The sweep runs in its own thread in Java. Here it runs to completion at the start
of `ResumeContext`, at the same `now`, before the lookup.

Two behaviours of the code are worth stating outright:

- When the configuration asks for a clone but the continuable is not a
  `CloneableContinuable`, resuming takes the reuse path and raises no error
  (ContinuationManager.java:136-141). `CloneNotSupported` only arises when the
  clone itself throws.
- The scan at ContinuationManager.java:213-218 runs outside the write lock and
  may race. In the model it sees the table as it is.

## Model

| member | source | states |
|---|---|---|
| `Expiry.IsExpired` | lib/src/main/java/rife/continuations/ContinuationManager.java:63-65 | expired exactly when at least `duration` ms have elapsed since the start; the boundary instant counts as expired |
| `Expiry.ExpiryIsPermanent` | lib/src/main/java/rife/continuations/ContinuationManager.java:63-65 | a context expired at `now` is still expired at any later instant |
| `Expiry.ExpiredKeys` | lib/src/main/java/rife/continuations/ContinuationManager.java:213-218 | a key is selected iff it is stored and its context is expired |
| `Expiry.Live` | lib/src/main/java/rife/continuations/ContinuationManager.java:240 | after removing expired entries in place, a key remains iff it was stored and unexpired, and its context is unchanged |
| `Expiry.PurgeIsIdempotent` | lib/src/main/java/rife/continuations/ContinuationManager.java:210-247 | a second sweep at the same instant removes nothing |
| `Expiry.LiveKeepsKeyedById` | lib/src/main/java/rife/continuations/ContinuationManager.java:240 | a sweep keeps every key mapped to a context with that id |
| `Expiry.ExpiredIdsAreExpiredKeys` | lib/src/main/java/rife/continuations/ContinuationManager.java:213-218 | when keys equal ids, the ids gathered from the expired values are exactly the expired keys |
| `Expiry.SnapshotMatchesRemoveIf` | lib/src/main/java/rife/continuations/ContinuationManager.java:210-247 | when keys equal ids, removing the collected ids leaves the same table as the removeIf fallback |
| `Expiry.ExpiredIds` | lib/src/main/java/rife/continuations/ContinuationManager.java:213-218 | an id is collected iff some stored context that is expired carries it (`getId()` over `values()`) |
| `Expiry.TriggeringDraws` | lib/src/main/java/rife/continuations/ContinuationManager.java:199-200 | a draw fires the sweep iff it lies in `[0, scale)` and is at most the frequency; the comparison itself is the predicate `PurgeTriggered`, used by `PurgeContinuations` |
| `Expiry.TriggeringDrawCount` | lib/src/main/java/rife/continuations/ContinuationManager.java:198-203 | exactly `frequency + 1` of the `scale` draws fire a sweep (clamped to `[0, scale]`), so the sweep probability is `(frequency + 1) / scale` |
| `Contexts.ContinuationContext.ResetId` | lib/src/main/java/rife/continuations/ContinuationManager.java:183 | the context takes the new identifier; its pause state is unchanged |
| `Contexts.ContinuationContext.Clone` | lib/src/main/java/rife/continuations/ContinuationManager.java:191 | either throws and yields no copy, or yields a fresh context with the same id, start, continuable and pause state |
| `Continuations.ContinuationManager.constructor` | lib/src/main/java/rife/continuations/ContinuationManager.java:39-42 | a new manager keeps the given configuration and an empty, valid registry |
| `Continuations.ContinuationManager.AddContext` | lib/src/main/java/rife/continuations/ContinuationManager.java:73-84 | null is ignored; otherwise the context is stored under its id (last write wins) and every other entry is unchanged; the key-equals-id invariant holds |
| `Continuations.ContinuationManager.RemoveContext` | lib/src/main/java/rife/continuations/ContinuationManager.java:95-106 | a null id is ignored; otherwise exactly that key is removed |
| `Continuations.ContinuationManager.GetContext` | lib/src/main/java/rife/continuations/ContinuationManager.java:163-179 | absent id: null, table unchanged; live entry: that context (whose id is the key), table unchanged; expired entry: null and only that key is removed |
| `Continuations.ContinuationManager.ReuseContext` | lib/src/main/java/rife/continuations/ContinuationManager.java:181-187 | returns the same object under the fresh id; the old id is no longer a key; the entry count is unchanged; the invariant holds |
| `Continuations.ContinuationManager.CloneContext` | lib/src/main/java/rife/continuations/ContinuationManager.java:189-196 | if the clone throws, nothing is inserted; otherwise a fresh copy is added under the fresh id and every existing entry, the original included, stays |
| `Continuations.ContinuationManager.ResumeContext` | lib/src/main/java/rife/continuations/ContinuationManager.java:124-148 | a non-positive scale fails with nothing changed; otherwise, after the optional sweep, an absent, expired or unpaused context gives NotFound (only lazy eviction changes the table); a cloneable continuable the configuration wants cloned takes the clone path; every other case takes the reuse path |
| `Continuations.ContinuationManager.PurgeContinuations` | lib/src/main/java/rife/continuations/ContinuationManager.java:198-203 | the table is swept exactly when the draw is at most the purge frequency, and is unchanged otherwise |
| `Continuations.ContinuationManager.Purge` | lib/src/main/java/rife/continuations/ContinuationManager.java:210-247 | on both paths, snapshot and fallback, the table afterwards is `Live` of the table before |
| `Continuations.ContinuationManager.CollectStale` | lib/src/main/java/rife/continuations/ContinuationManager.java:211-218 | the scan over the values collects exactly the ids carried by expired contexts (`ExpiredIds`); with keys equal to ids these are the expired keys |
| `Continuations.ContinuationManager.RemoveIds` | lib/src/main/java/rife/continuations/ContinuationManager.java:220-229 | removes exactly the listed ids and leaves the other entries unchanged |
| `Continuations.ContinuationManager.RemoveExpired` | lib/src/main/java/rife/continuations/ContinuationManager.java:237-243 | the in-place fallback leaves exactly `Live` of the table before |

## Left out

- Locking (`ReentrantReadWriteLock`): every operation is one atomic sequential step. The mutual exclusion of two concurrent resumes is not modelled. The sequential counterpart is shown instead: after a reuse, the old id resumes nothing.
- The purge thread, its priority changes and the `ConcurrentModificationException` itself: the sweep runs synchronously, and the exception is the `raced` parameter choosing the fallback.
- `WeakHashMap` reclamation by the garbage collector: the registry is an ordinary map. Entries leave it only through the modelled operations.
- `ContinuationContext` internals: how `resetId` generates an id, and what `clone` copies beyond start, continuable and pause state. The clone is a new object. The deep copy of the continuable is not modelled, because `Continuable` is a value.
- Continuations.ContinuationManager.ResumeContext: id uniqueness is required only among the current keys (`newId !in contexts`). The Javadoc at ContinuationManager.java:116 promises that the new context has its own unique ID, i.e. an id is never issued twice over the registry's lifetime. That would need a history of issued ids, which the manager does not keep.
- Expiry.IsExpired: Java `long` wrap-around in `now - duration` is not modelled. Timestamps and durations are unbounded integers.
- `getConfigRuntime` is a plain getter; the configuration is the `config` field.
- The start time of a reused context is never changed by the manager. Whether `resetId` refreshes it is not part of this model, and here it stays fixed.
