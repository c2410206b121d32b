/**
 * The pure rules of the continuation registry: when a context has expired,
 * what a purge sweep leaves behind, and when a resume triggers a sweep.
 */
module Expiry {
  import opened Contexts

  type Registry = map<string, ContinuationContext>

  /** A context is expired once `duration` milliseconds have elapsed since it
      started: the boundary instant itself already counts as expired. */
  function IsExpired(ctx: ContinuationContext, now: int, duration: int): (r: bool)
    ensures r <==> now - ctx.start >= duration
  {
    ctx.start <= now - duration
  }

  /** Once expired, a context stays expired as time goes on, so evicting it
      lazily or in a sweep never removes something that would revive. */
  lemma ExpiryIsPermanent(ctx: ContinuationContext, now: int, later: int, duration: int)
    requires now <= later
    ensures IsExpired(ctx, now, duration) ==> IsExpired(ctx, later, duration)
  {
  }

  /** Every key maps to a context carrying that key as its identifier. */
  ghost predicate KeyedById(m: Registry)
    reads m.Values
  {
    forall k :: k in m ==> m[k].id == k
  }

  /** The keys whose contexts have expired. */
  function ExpiredKeys(m: Registry, now: int, duration: int): (ks: set<string>)
    ensures forall k :: k in ks <==> k in m && IsExpired(m[k], now, duration)
  {
    set k | k in m && IsExpired(m[k], now, duration)
  }

  /** The identifiers carried by the expired contexts: what the snapshot scan
      collects by walking the values and asking each for its id. */
  ghost function ExpiredIds(m: Registry, now: int, duration: int): (ids: set<string>)
    reads m.Values
    ensures forall s :: s in ids <==> exists c :: c in m.Values && IsExpired(c, now, duration) && c.id == s
  {
    set c | c in m.Values && IsExpired(c, now, duration) :: c.id
  }

  /** The registry after removing every expired entry in place (the removeIf
      sweep): exactly the unexpired entries remain, each unchanged. */
  function Live(m: Registry, now: int, duration: int): (r: Registry)
    ensures forall k :: k in r <==> k in m && !IsExpired(m[k], now, duration)
    ensures forall k :: k in r ==> r[k] == m[k]
  {
    map k | k in m && !IsExpired(m[k], now, duration) :: m[k]
  }

  /** A second sweep at the same instant removes nothing. */
  lemma PurgeIsIdempotent(m: Registry, now: int, duration: int)
    ensures Live(Live(m, now, duration), now, duration) == Live(m, now, duration)
  {
  }

  /** Sweeping keeps the key-equals-id invariant. */
  lemma LiveKeepsKeyedById(m: Registry, now: int, duration: int)
    requires KeyedById(m)
    ensures KeyedById(Live(m, now, duration))
  {
  }

  /** With keys equal to ids, the ids the scan collects are exactly the
      expired keys. */
  lemma ExpiredIdsAreExpiredKeys(m: Registry, now: int, duration: int)
    requires KeyedById(m)
    ensures ExpiredIds(m, now, duration) == ExpiredKeys(m, now, duration)
  {
    forall s | s in ExpiredIds(m, now, duration)
      ensures s in ExpiredKeys(m, now, duration)
    {
      var c :| c in m.Values && IsExpired(c, now, duration) && c.id == s;
      var k :| k in m && m[k] == c;
      assert k == s;
    }
    forall k | k in ExpiredKeys(m, now, duration)
      ensures k in ExpiredIds(m, now, duration)
    {
      assert m[k] in m.Values;
    }
  }

  /** The snapshot sweep (collect the ids of expired contexts, then remove
      those keys) and the removeIf fallback leave the same registry. */
  lemma SnapshotMatchesRemoveIf(m: Registry, now: int, duration: int)
    requires KeyedById(m)
    ensures m - ExpiredIds(m, now, duration) == Live(m, now, duration)
  {
    ExpiredIdsAreExpiredKeys(m, now, duration);
  }

  /** A resume launches a sweep when its draw from [0, scale) is at most the
      purge frequency. */
  predicate PurgeTriggered(draw: int, frequency: int)
  {
    draw <= frequency
  }

  /** The draws in [0, scale) that launch a sweep. */
  function TriggeringDraws(scale: int, frequency: int): (ds: set<int>)
    ensures forall d :: d in ds <==> 0 <= d < scale && PurgeTriggered(d, frequency)
  {
    set d | 0 <= d < scale && PurgeTriggered(d, frequency)
  }

  /** Of the `scale` equally likely draws, `frequency + 1` launch a sweep
      (none when the frequency is negative, all when it reaches the scale),
      so the sweep probability is (frequency + 1) / scale. */
  lemma {:induction false} TriggeringDrawCount(scale: nat, frequency: int)
    ensures |TriggeringDraws(scale, frequency)| ==
            if frequency < 0 then 0
            else if frequency + 1 < scale then frequency + 1
            else scale
  {
    if scale > 0 {
      TriggeringDrawCount(scale - 1, frequency);
      var below := TriggeringDraws(scale - 1, frequency);
      if PurgeTriggered(scale - 1, frequency) {
        assert TriggeringDraws(scale, frequency) == below + {scale - 1};
      } else {
        assert TriggeringDraws(scale, frequency) == below;
      }
    } else {
      assert TriggeringDraws(scale, frequency) == {};
    }
  }
}
