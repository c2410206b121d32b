/**
 * The continuation registry: a table from identifiers to continuation
 * contexts with a time-to-live, lazy eviction on lookup, a resume protocol
 * that either reuses or clones the stored context, and a purge sweep.
 * Locking is left out: every method is one atomic sequential step. The
 * current time, the purge draw and the fresh identifier are parameters.
 */
module Continuations {
  import opened Options
  import opened Contexts
  import opened Expiry

  /** The runtime configuration the manager consults. */
  datatype Config = Config(
    duration: int,
    purgeFrequency: int,
    purgeScale: int,
    cloneContinuations: Continuable -> bool)

  datatype ResumeError =
    | CloneNotSupported   // the continuable's clone raised CloneNotSupportedException
    | IllegalPurgeScale   // the purge draw over a non-positive scale raised IllegalArgumentException

  /** What a resume hands back: the context to run, nothing (null), or the
      exception it raised. */
  datatype Resumption =
    | Resumed(context: ContinuationContext)
    | NotFound
    | Failed(error: ResumeError)

  class ContinuationManager {
    var contexts: map<string, ContinuationContext>
    const config: Config

    /** Every stored context is keyed by its own identifier. */
    ghost predicate Valid()
      reads this, contexts.Values
    {
      KeyedById(contexts)
    }

    constructor (config: Config)
      ensures this.config == config && contexts == map[] && Valid()
    {
      this.config := config;
      contexts := map[];
    }

    /** Registers a context under its identifier (last write wins); a null
        context is ignored. */
    method AddContext(ctx: ContinuationContext?)
      requires Valid()
      modifies this
      ensures Valid()
      ensures ctx == null ==> contexts == old(contexts)
      ensures ctx != null ==> contexts == old(contexts)[ctx.id := ctx]
    {
      if ctx == null {
        return;
      }
      contexts := contexts[ctx.id := ctx];
    }

    /** Removes the entry for `id`; a null id (None) is ignored. */
    method RemoveContext(id: Option<string>)
      requires Valid()
      modifies this
      ensures Valid()
      ensures id == None ==> contexts == old(contexts)
      ensures id != None ==> contexts == old(contexts) - {id.value}
    {
      if id == None {
        return;
      }
      contexts := contexts - {id.value};
    }

    /** Looks `id` up; an expired entry is evicted and reported as absent. */
    method GetContext(id: string, now: int) returns (ctx: ContinuationContext?)
      requires Valid()
      modifies this
      ensures Valid()
      ensures id !in old(contexts) ==> ctx == null && contexts == old(contexts)
      ensures id in old(contexts) && !IsExpired(old(contexts)[id], now, config.duration) ==>
                ctx == old(contexts)[id] && ctx.id == id && contexts == old(contexts)
      ensures id in old(contexts) && IsExpired(old(contexts)[id], now, config.duration) ==>
                ctx == null && contexts == old(contexts) - {id}
    {
      ctx := if id in contexts then contexts[id] else null;
      if ctx != null {
        if IsExpired(ctx, now, config.duration) {
          ctx := null;
          RemoveContext(Some(id));
        }
      }
    }

    /** Reuse path: the stored context leaves under its old identifier and
        comes back, as the same object, under a fresh one. */
    method ReuseContext(ctx: ContinuationContext, newId: string) returns (r: ContinuationContext)
      requires Valid() && ctx.id in contexts && contexts[ctx.id] == ctx
      requires newId !in contexts
      modifies this, ctx
      ensures Valid()
      ensures r == ctx && ctx.id == newId && ctx.paused == old(ctx.paused)
      ensures old(ctx.id) !in contexts
      ensures contexts == (old(contexts) - {old(ctx.id)})[newId := ctx]
      ensures |contexts| == |old(contexts)|
    {
      var oldId := ctx.id;
      contexts := contexts - {oldId};
      assert ctx !in contexts.Values;
      ctx.ResetId(newId);
      AddContext(ctx);
      r := ctx;
      assert contexts.Keys == old(contexts).Keys - {oldId} + {newId};
    }

    /** Clone path: a copy of the stored context is registered under a fresh
        identifier, and the original stays registered. If the copy cannot be
        made, nothing is inserted. */
    method CloneContext(ctx: ContinuationContext, newId: string, throws: bool)
      returns (r: Resumption)
      requires Valid() && newId !in contexts
      modifies this
      ensures Valid()
      ensures throws ==> r == Failed(CloneNotSupported) && contexts == old(contexts)
      ensures !throws ==> r.Resumed? && fresh(r.context)
      ensures !throws ==> r.context.id == newId && r.context.start == ctx.start
                          && r.context.continuable == ctx.continuable
                          && r.context.paused == ctx.paused
      ensures !throws ==> contexts == old(contexts)[newId := r.context]
    {
      var copy := ctx.Clone(throws);
      if copy == null {
        return Failed(CloneNotSupported);
      }
      copy.ResetId(newId);
      AddContext(copy);
      r := Resumed(copy);
    }

    /** Resumes the context stored under `id`. A sweep is attempted first
        with the supplied draw; then the context is looked up with lazy
        eviction; a missing, expired or unpaused context yields NotFound;
        a cloneable continuable the configuration wants cloned takes the
        clone path, everything else the reuse path. */
    method ResumeContext(id: string, now: int, draw: int, newId: string, throws: bool, raced: bool)
      returns (r: Resumption)
      requires Valid()
      requires config.purgeScale > 0 ==> 0 <= draw < config.purgeScale
      requires newId !in contexts
      modifies this, if id in contexts then {contexts[id]} else {}
      ensures Valid()
      ensures id in old(contexts) ==> old(contexts)[id].paused == old(contexts[id].paused)
      ensures config.purgeScale <= 0 ==> r == Failed(IllegalPurgeScale) && contexts == old(contexts)
      ensures config.purgeScale > 0 ==>
        var m := if PurgeTriggered(draw, config.purgeFrequency)
                 then Live(old(contexts), now, config.duration) else old(contexts);
        if id !in m then
          r == NotFound && contexts == m
        else if IsExpired(m[id], now, config.duration) then
          r == NotFound && contexts == m - {id}
        else if !old(m[id].paused) then
          r == NotFound && contexts == m
        else if m[id].continuable.cloneable && config.cloneContinuations(m[id].continuable) then
          if throws then
            r == Failed(CloneNotSupported) && contexts == m
          else
            r.Resumed? && fresh(r.context) && r.context.id == newId
            && r.context.start == m[id].start && r.context.continuable == m[id].continuable
            && r.context.paused == old(m[id].paused)
            && m[id].id == id && id in contexts
            && contexts == m[newId := r.context]
        else
          r == Resumed(m[id]) && m[id].id == newId && id !in contexts
          && contexts == (m - {id})[newId := m[id]]
    {
      if config.purgeScale <= 0 {
        return Failed(IllegalPurgeScale);
      }
      PurgeContinuations(now, draw, raced);
      r := NotFound;
      var ctx := GetContext(id, now);
      if ctx != null && ctx.paused {
        var continuable := ctx.continuable;
        if continuable.cloneable && config.cloneContinuations(continuable) {
          r := CloneContext(ctx, newId, throws);
        } else {
          var reused := ReuseContext(ctx, newId);
          r := Resumed(reused);
        }
      }
    }

    /** Launches a sweep when the draw is at most the purge frequency. */
    method PurgeContinuations(now: int, draw: int, raced: bool)
      requires Valid()
      modifies this
      ensures Valid()
      ensures contexts == if PurgeTriggered(draw, config.purgeFrequency)
                          then Live(old(contexts), now, config.duration)
                          else old(contexts)
    {
      if PurgeTriggered(draw, config.purgeFrequency) {
        Purge(now, raced);
      }
    }

    /** The sweep. Normally it scans for the ids of expired contexts and then
        removes them; `raced` stands for the scan being interrupted by a
        concurrent modification, after which every expired entry is removed
        in place instead. Either way only the unexpired entries remain. */
    method Purge(now: int, raced: bool)
      requires Valid()
      modifies this
      ensures Valid()
      ensures contexts == Live(old(contexts), now, config.duration)
    {
      if !raced {
        var stale := CollectStale(now);
        if |stale| > 0 {
          RemoveIds(stale);
        }
        // The collected ids are the expired keys because keys equal ids.
        SnapshotMatchesRemoveIf(old(contexts), now, config.duration);
      } else {
        RemoveExpired(now);
      }
    }

    /** The snapshot scan: walks the stored contexts and collects the ids
        they carry when they are expired. */
    method CollectStale(now: int) returns (stale: seq<string>)
      ensures (set s | s in stale) == ExpiredIds(contexts, now, config.duration)
    {
      stale := [];
      var pending := contexts.Values;
      while pending != {}
        invariant pending <= contexts.Values
        invariant (set s | s in stale) ==
                  (set c | c in contexts.Values - pending && IsExpired(c, now, config.duration) :: c.id)
        decreases pending
      {
        var ctx :| ctx in pending;
        ghost var before := set c | c in contexts.Values - pending && IsExpired(c, now, config.duration) :: c.id;
        if IsExpired(ctx, now, config.duration) {
          assert (set c | c in contexts.Values - (pending - {ctx}) && IsExpired(c, now, config.duration) :: c.id)
                 == before + {ctx.id};
          assert forall s :: s in stale + [ctx.id] <==> s in stale || s == ctx.id;
          assert (set s | s in stale + [ctx.id]) == (set s | s in stale) + {ctx.id};
          stale := stale + [ctx.id];
        } else {
          assert (set c | c in contexts.Values - (pending - {ctx}) && IsExpired(c, now, config.duration) :: c.id)
                 == before;
        }
        pending := pending - {ctx};
      }
    }

    /** Removes every listed id. */
    method RemoveIds(ids: seq<string>)
      requires Valid()
      modifies this
      ensures Valid()
      ensures contexts == old(contexts) - (set s | s in ids)
    {
      for i := 0 to |ids|
        invariant Valid()
        invariant forall k :: k in contexts <==> k in old(contexts) && k !in ids[..i]
        invariant forall k :: k in contexts ==> contexts[k] == old(contexts)[k]
      {
        assert ids[..i + 1] == ids[..i] + [ids[i]];
        contexts := contexts - {ids[i]};
      }
      assert ids[..|ids|] == ids;
    }

    /** The fallback sweep: removes, entry by entry, every expired context. */
    method RemoveExpired(now: int)
      requires Valid()
      modifies this
      ensures Valid()
      ensures contexts == Live(old(contexts), now, config.duration)
    {
      var pending := contexts.Keys;
      while pending != {}
        invariant Valid()
        invariant pending <= old(contexts).Keys
        invariant forall k :: k in contexts <==>
                    k in old(contexts) && (k in pending || !IsExpired(old(contexts)[k], now, config.duration))
        invariant forall k :: k in contexts ==> contexts[k] == old(contexts)[k]
        decreases pending
      {
        var k :| k in pending;
        if IsExpired(contexts[k], now, config.duration) {
          contexts := contexts - {k};
        }
        pending := pending - {k};
      }
    }
  }
}
