/** The memory optimizer's bookkeeping: named object pools that hand out the most recently
    returned object and count hits and misses, and the eviction of a memory cache by last
    access time; plus the summary of an optimization run. */
module Performance {
  import opened Wrappers
  import opened Seqs

  // ---------------------------------------------------------------------------------
  // Object pools

  /** A pool: the objects waiting for reuse (the last one is handed out first), the most
      it may hold, the cleanup threshold it is configured with, and its counters. */
  datatype Pool<T> = Pool(objects: seq<T>, maxSize: nat, cleanupThreshold: real,
                          hits: nat, misses: nat)

  predicate WithinCapacity<T>(p: Pool<T>) {
    |p.objects| <= p.maxSize
  }

  /** The pools set up, in order, with their sizes. */
  const PoolNames: seq<string> := ["strings", "lists", "dicts", "bytes"]
  const PoolSizes: seq<nat> := [1000, 500, 500, 200]

  function EmptyPool<T>(maxSize: nat): (p: Pool<T>)
    ensures WithinCapacity(p) && |p.objects| == 0 && p.hits == 0 && p.misses == 0
  {
    Pool([], maxSize, 0.8, 0, 0)
  }

  function SumOf(s: seq<nat>): nat {
    if |s| == 0 then 0 else s[0] + SumOf(s[1..])
  }

  datatype PoolSetup = PoolSetup(poolsCreated: nat, poolTypes: seq<string>, totalCapacity: nat)

  /** What taking from a pool does: an object on hand is removed and returned with one more
      hit; otherwise one more miss and nothing from the pool. */
  function Take<T>(p: Pool<T>): (r: (Pool<T>, Option<T>))
    ensures |p.objects| > 0 ==>
      && r.1 == Some(p.objects[|p.objects| - 1])
      && r.0.objects == p.objects[..|p.objects| - 1]
      && r.0.hits == p.hits + 1 && r.0.misses == p.misses
    ensures |p.objects| == 0 ==> r.1 == None && r.0 == p.(misses := p.misses + 1)
    ensures r.0.maxSize == p.maxSize && r.0.cleanupThreshold == p.cleanupThreshold
    ensures WithinCapacity(p) ==> WithinCapacity(r.0)
  {
    if |p.objects| > 0 then
      (p.(objects := p.objects[..|p.objects| - 1], hits := p.hits + 1), Some(p.objects[|p.objects| - 1]))
    else
      (p.(misses := p.misses + 1), None)
  }

  /** What returning to a pool does: accepted and appended exactly when the pool is below
      its size; a full pool is left as it was. */
  function Give<T>(p: Pool<T>, obj: T): (r: (Pool<T>, bool))
    ensures r.1 <==> |p.objects| < p.maxSize
    ensures r.1 ==> r.0 == p.(objects := p.objects + [obj])
    ensures !r.1 ==> r.0 == p
    ensures WithinCapacity(r.0) <==> WithinCapacity(p) || r.1
  {
    if |p.objects| < p.maxSize then (p.(objects := p.objects + [obj]), true) else (p, false)
  }

  /** The pool is last in, first out: an object just accepted is the next one handed out,
      and the objects are back to what they were, with one more hit. */
  lemma GiveThenTake<T>(p: Pool<T>, obj: T)
    requires |p.objects| < p.maxSize
    ensures var (q, _) := Give(p, obj);
      var (after, taken) := Take(q);
      taken == Some(obj) && after == p.(hits := p.hits + 1)
  {
    var (q, _) := Give(p, obj);
    assert q.objects[..|q.objects| - 1] == p.objects;
  }

  /** A pool that holds an object gives it out and takes it back unchanged but for one
      more hit. */
  lemma TakeThenGive<T>(p: Pool<T>)
    requires WithinCapacity(p) && |p.objects| > 0
    ensures var (q, taken) := Take(p);
      taken.Some? && Give(q, taken.value) == (p.(hits := p.hits + 1), true)
  {
    var (q, taken) := Take(p);
    assert q.objects + [taken.value] == p.objects;
  }

  // ---------------------------------------------------------------------------------
  // Memory cache

  /** A cache entry: only its last access time, absent on an entry never accessed, is
      read. */
  datatype CacheEntry = CacheEntry(lastAccess: Option<int>)

  /** A dictionary: its keys in insertion order, and the entry of each key. */
  datatype Cache = Cache(order: seq<string>, entries: map<string, CacheEntry>)

  ghost predicate WellFormed(c: Cache) {
    NoDuplicates(c.order) && (forall k :: k in c.entries <==> k in c.order)
  }

  /** The sort key: the last access time, 0 when there is none. */
  function AccessKey(entries: map<string, CacheEntry>): string -> int {
    k => if k in entries then entries[k].lastAccess.GetOr(0) else 0
  }

  /** The keys sorted by last access, oldest first, ties kept in insertion order. */
  function ByAccess(c: Cache): (r: seq<string>)
    ensures SortedBy(r, AccessKey(c.entries)) && multiset(r) == multiset(c.order)
    ensures |r| == |c.order|
  {
    SortBy(c.order, AccessKey(c.entries))
  }

  /** The sort is stable: keys accessed at the same time keep the cache's insertion order. */
  lemma ByAccessStable(c: Cache, accessed: int)
    ensures Filter(ByAccess(c), KeyIs(AccessKey(c.entries), accessed))
            == Filter(c.order, KeyIs(AccessKey(c.entries), accessed))
  {
    SortByStable(c.order, AccessKey(c.entries), accessed);
  }

  /** A quarter of the memory limit, in bytes. */
  function CacheLimit(memoryLimitMb: int): int {
    memoryLimitMb * 1024 * 1024 / 4
  }

  /** How many entries the cache may keep: one per KiB of the cache limit, that is 256 per
      MiB of the memory limit, at most all of them. Negative or zero for a limit below one
      MiB. */
  function KeepCount(n: nat, memoryLimitMb: int): (k: int)
    ensures k <= n && k <= 256 * memoryLimitMb
    ensures k == n || k == 256 * memoryLimitMb
    ensures memoryLimitMb >= 1 ==> k >= 0
    ensures memoryLimitMb == 0 ==> k == 0
  {
    var perKib := CacheLimit(memoryLimitMb) / 1024;
    if n < perKib then n else perKib
  }

  /** Python's `s[:stop]`: a negative stop counts from the end. */
  function SliceTo<T>(s: seq<T>, stop: int): (r: seq<T>)
    ensures stop >= 0 ==> |r| == (if stop < |s| then stop else |s|)
    ensures stop < 0 ==> |r| == (if |s| + stop > 0 then |s| + stop else 0)
    ensures r == s[..|r|]
  {
    if stop >= 0 then (if stop < |s| then s[..stop] else s)
    else if |s| + stop > 0 then s[..|s| + stop] else []
  }

  function NotIn(keys: seq<string>): string -> bool {
    k => k !in keys
  }

  /** The dictionary after `del` of each of `keys`. */
  function Delete(c: Cache, keys: seq<string>): (r: Cache)
    ensures forall k :: k in r.entries <==> k in c.entries && k !in keys
    ensures forall k :: k in r.entries ==> r.entries[k] == c.entries[k]
  {
    Cache(Filter(c.order, NotIn(keys)), map k | k in c.entries && k !in keys :: c.entries[k])
  }

  /** Deleting keys keeps the dictionary well formed. */
  lemma DeleteWellFormed(c: Cache, keys: seq<string>)
    requires WellFormed(c)
    ensures WellFormed(Delete(c, keys))
  {
    FilterNoDuplicates(c.order, NotIn(keys));
    var r := Delete(c, keys);
    forall k ensures k in r.entries <==> k in r.order {
      if k in r.order {
        FilterMember(c.order, NotIn(keys), k);
      }
      if k in r.entries {
        var i :| 0 <= i < |c.order| && c.order[i] == k;
      }
    }
  }

  /** Deleting one more key from what is left is deleting it with the others. */
  lemma DeleteOneMore(c: Cache, keys: seq<string>, key: string)
    ensures var r := Delete(c, keys);
      Cache(Filter(r.order, NotIn([key])), r.entries - {key}) == Delete(c, keys + [key])
  {
    FilterTwice(c.order, NotIn(keys), NotIn([key]), NotIn(keys + [key]));
  }

  /** Deleting no key leaves the dictionary as it is. */
  lemma DeleteNothing(c: Cache)
    ensures Delete(c, []) == c
  {
    FilterAll(c.order, NotIn([]));
  }

  /** `DeleteOneMore` for the prefixes of one list of keys. */
  lemma DeletePrefixStep(c: Cache, keys: seq<string>, i: nat)
    requires i < |keys|
    ensures var r := Delete(c, keys[..i]);
      Cache(Filter(r.order, NotIn([keys[i]])), r.entries - {keys[i]}) == Delete(c, keys[..i + 1])
  {
    assert keys[..i + 1] == keys[..i] + [keys[i]];
    DeleteOneMore(c, keys[..i], keys[i]);
  }

  datatype CacheReport = CacheReport(cacheSize: nat, itemsRemoved: int, memoryFreed: Option<int>)

  /** The report of a non-empty cache: its new size, the removed count and the memory
      freed, estimated at 1 KiB per removed entry. */
  function ReportOf(size: nat, removed: int): (r: CacheReport)
    ensures r.memoryFreed.Some? && r.memoryFreed.value == 1024 * removed
    ensures r.cacheSize == size && r.itemsRemoved == removed
  {
    CacheReport(size, removed, Some(removed * 1024))
  }

  datatype Eviction = Eviction(cache: Cache, report: CacheReport)

  /** Deleting `gone` from a non-empty cache and reporting `removed` entries removed. */
  function Evicting(c: Cache, gone: seq<string>, removed: int): (r: Eviction)
    requires WellFormed(c)
    ensures WellFormed(r.cache)
    ensures r.cache == Delete(c, gone)
    ensures r.report == ReportOf(|r.cache.entries|, removed)
  {
    DeleteWellFormed(c, gone);
    var after := Delete(c, gone);
    Eviction(after, ReportOf(|after.entries|, removed))
  }

  /** The keys `_optimize_memory_cache` deletes: `sorted[:-keep]` when some entries are
      to be removed, which for a keep count of 0 is empty. */
  function WrittenEvicted(c: Cache, memoryLimitMb: int): seq<string> {
    var sorted := ByAccess(c);
    var keep := KeepCount(|sorted|, memoryLimitMb);
    if |sorted| - keep > 0 then SliceTo(sorted, -keep) else []
  }

  /** Eviction as `_optimize_memory_cache` is written: it drops `WrittenEvicted` and
      reports the entries beyond the keep count as removed, so for a keep count of 0
      nothing goes while every entry is reported removed. A non-empty cache reports 1 KiB
      freed per entry reported removed. */
  function EvictAsWritten(c: Cache, memoryLimitMb: int): (r: Eviction)
    requires WellFormed(c)
    ensures WellFormed(r.cache)
    ensures |c.entries| > 0 ==> r.report.memoryFreed == Some(1024 * r.report.itemsRemoved)
  {
    if |c.entries| == 0 then Eviction(c, CacheReport(0, 0, None))
    else Evicting(c, WrittenEvicted(c, memoryLimitMb), |c.order| - KeepCount(|c.order|, memoryLimitMb))
  }

  /** The written eviction of a non-empty cache deletes `WrittenEvicted` and reports the
      entries beyond the keep count as removed. */
  lemma WrittenEviction(c: Cache, memoryLimitMb: int)
    requires WellFormed(c) && |c.entries| > 0
    ensures var r := EvictAsWritten(c, memoryLimitMb);
      && r.cache == Delete(c, WrittenEvicted(c, memoryLimitMb))
      && r.report.cacheSize == |r.cache.entries|
      && r.report.itemsRemoved == |c.order| - KeepCount(|c.order|, memoryLimitMb)
  {
  }

  /** `WrittenEvicted` from the sorted keys and the keep count. */
  lemma WrittenEvictedFrom(c: Cache, memoryLimitMb: int, sorted: seq<string>, keep: int)
    requires sorted == ByAccess(c) && keep == KeepCount(|sorted|, memoryLimitMb)
    ensures WrittenEvicted(c, memoryLimitMb) == if |sorted| - keep > 0 then SliceTo(sorted, -keep) else []
  {
  }

  /** With a zero memory limit the written eviction deletes nothing yet reports the whole
      cache removed: cache size and removed count add up to twice the entries. */
  lemma ZeroLimitEvictsNothing(c: Cache)
    requires WellFormed(c) && |c.entries| > 0
    ensures EvictAsWritten(c, 0).cache.entries == c.entries
    ensures EvictAsWritten(c, 0).report.itemsRemoved == |c.entries|
    ensures EvictAsWritten(c, 0).report.cacheSize == |c.entries|
  {
    EntriesCount(c);
    assert WrittenEvicted(c, 0) == [];
    DeleteNothing(c);
  }

  /** The number of entries the cache keeps: the keep count, never below zero. */
  function Kept(n: nat, memoryLimitMb: int): (k: nat)
    ensures k <= n
  {
    var keep := KeepCount(n, memoryLimitMb);
    if keep < 0 then 0 else keep
  }

  /** The keys the intended eviction drops: the oldest, all but the `Kept` most recent. */
  function Evicted(c: Cache, memoryLimitMb: int): seq<string> {
    var sorted := ByAccess(c);
    sorted[..|sorted| - Kept(|sorted|, memoryLimitMb)]
  }

  /** The intended eviction: drop the `Evicted` keys. */
  function Evict(c: Cache, memoryLimitMb: int): (r: Eviction)
    requires WellFormed(c)
    ensures WellFormed(r.cache)
  {
    if |c.entries| == 0 then Eviction(c, CacheReport(0, 0, None))
    else
      var gone := Evicted(c, memoryLimitMb);
      Evicting(c, gone, |gone|)
  }

  /** For a memory limit of at least 1 MiB the keep count is positive for a non-empty
      cache, and the written eviction is the intended one. */
  lemma EvictAsWrittenAgrees(c: Cache, memoryLimitMb: int)
    requires WellFormed(c) && memoryLimitMb >= 1
    ensures EvictAsWritten(c, memoryLimitMb) == Evict(c, memoryLimitMb)
  {
    if |c.entries| > 0 {
      var sorted := ByAccess(c);
      var keep := KeepCount(|sorted|, memoryLimitMb);
      EntriesCount(c);
      assert keep > 0;
      assert Kept(|sorted|, memoryLimitMb) == keep;
      assert WrittenEvicted(c, memoryLimitMb) == Evicted(c, memoryLimitMb);
    }
  }

  /** In a well-formed cache the order lists each key once, so there are as many entries
      as keys listed. */
  lemma EntriesCount(c: Cache)
    requires WellFormed(c)
    ensures |c.entries| == |c.order|
  {
    NoDuplicatesSize(c.order);
    assert c.entries.Keys == set k | k in c.order;
  }

  /** The intended eviction accounts for every entry: what is kept and what is reported
      removed add up to the old size, the kept count is the `Kept` bound, and nothing kept
      was accessed before anything evicted. */
  lemma EvictionAccounts(c: Cache, memoryLimitMb: int)
    requires WellFormed(c)
    ensures var r := Evict(c, memoryLimitMb);
      && r.report.cacheSize == |r.cache.entries|
      && r.report.cacheSize + r.report.itemsRemoved == |c.entries|
      && r.report.cacheSize == Kept(|c.entries|, memoryLimitMb)
      && (forall k :: k in r.cache.entries ==> k in c.entries && r.cache.entries[k] == c.entries[k])
  {
    EntriesCount(c);
    if |c.entries| > 0 {
      var sorted := ByAccess(c);
      var evicted := Evicted(c, memoryLimitMb);
      NoDuplicatesPermutation(c.order, sorted);
      assert NoDuplicates(evicted) by {
        forall i, j | 0 <= i < j < |evicted| ensures evicted[i] != evicted[j] {
          assert evicted[i] == sorted[i] && evicted[j] == sorted[j];
        }
      }
      forall k | k in evicted ensures k in c.entries {
        assert k in multiset(sorted);
      }
      DeleteSize(c, evicted);
      assert Evict(c, memoryLimitMb).cache == Delete(c, evicted);
    }
  }

  /** Deleting distinct keys of the dictionary removes one entry per key. */
  lemma DeleteSize(c: Cache, keys: seq<string>)
    requires NoDuplicates(keys)
    requires forall k :: k in keys ==> k in c.entries
    ensures |Delete(c, keys).entries| == |c.entries| - |keys|
  {
    NoDuplicatesSize(keys);
    var gone := set k | k in keys;
    var after := Delete(c, keys);
    assert after.entries.Keys == c.entries.Keys - gone;
    assert c.entries.Keys == (c.entries.Keys - gone) + gone;
  }

  /** Eviction keeps the most recently accessed entries: every entry kept was last
      accessed no earlier than every entry evicted. */
  lemma EvictionKeepsMostRecent(c: Cache, memoryLimitMb: int, kept: string, evicted: string)
    requires WellFormed(c)
    requires kept in Evict(c, memoryLimitMb).cache.entries
    requires evicted in c.entries && evicted !in Evict(c, memoryLimitMb).cache.entries
    ensures AccessKey(c.entries)(evicted) <= AccessKey(c.entries)(kept)
  {
    var sorted := ByAccess(c);
    var gone := Evicted(c, memoryLimitMb);
    assert Evict(c, memoryLimitMb).cache == Delete(c, gone);
    assert kept !in gone && evicted in gone;
    var j :| 0 <= j < |gone| && gone[j] == evicted;
    assert kept in multiset(sorted);
    var p :| 0 <= p < |sorted| && sorted[p] == kept;
    NotInPrefix(sorted, |gone|, p);
    assert j < p && sorted[j] == evicted;
  }

  /** An element missing from a prefix sits at or after the prefix's end. */
  lemma NotInPrefix<T>(s: seq<T>, n: nat, p: nat)
    requires n <= |s| && p < |s| && s[p] !in s[..n]
    ensures n <= p
  {
    forall q | 0 <= q < n ensures s[q] != s[p] {
      assert s[q] == s[..n][q];
    }
  }

  // ---------------------------------------------------------------------------------
  // The optimizer

  class MemoryOptimizer<T> {
    const memoryLimitMb: int
    var objectPools: map<string, Pool<T>>
    var memoryCache: Cache

    /** Every pool holds at most its size, and the cache dictionary is well formed. */
    ghost predicate Valid()
      reads this
    {
      (forall name :: name in objectPools ==> WithinCapacity(objectPools[name]))
      && WellFormed(memoryCache)
    }

    constructor(memoryLimitMb: int)
      ensures this.memoryLimitMb == memoryLimitMb
      ensures objectPools == map[] && memoryCache == Cache([], map[])
      ensures Valid()
    {
      this.memoryLimitMb := memoryLimitMb;
      objectPools := map[];
      memoryCache := Cache([], map[]);
    }

    /** `_setup_object_pools`: (re)creates the four pools, empty, with their sizes. */
    method SetupObjectPools() returns (report: PoolSetup)
      requires Valid()
      modifies this
      ensures Valid()
      ensures forall k :: 0 <= k < 4 ==>
        PoolNames[k] in objectPools && objectPools[PoolNames[k]] == EmptyPool(PoolSizes[k])
      ensures forall name :: name in objectPools <==> name in old(objectPools) || name in PoolNames
      ensures forall name :: name in old(objectPools) && name !in PoolNames ==>
        objectPools[name] == old(objectPools[name])
      ensures memoryCache == old(memoryCache)
      ensures report == PoolSetup(4, PoolNames, 2200)
    {
      var created := 0;
      for i := 0 to |PoolNames|
        invariant created == i
        invariant Valid()
        invariant forall k :: 0 <= k < i ==>
          PoolNames[k] in objectPools && objectPools[PoolNames[k]] == EmptyPool(PoolSizes[k])
        invariant forall name :: name in objectPools <==> name in old(objectPools) || name in PoolNames[..i]
        invariant forall name :: name in old(objectPools) && name !in PoolNames[..i] ==>
          objectPools[name] == old(objectPools[name])
        invariant memoryCache == old(memoryCache)
      {
        objectPools := objectPools[PoolNames[i] := EmptyPool(PoolSizes[i])];
        created := created + 1;
      }
      assert PoolNames[..4] == PoolNames;
      report := PoolSetup(created, PoolNames, SumOf(PoolSizes));
    }

    /** `get_from_pool`: from a known pool, `Take`; otherwise what the factory makes
        (`made`, None without a factory), and no pool changes. A pool with nothing on hand
        also answers with what the factory makes. */
    method GetFromPool(name: string, made: Option<T>) returns (obj: Option<T>)
      requires Valid()
      modifies this
      ensures Valid()
      ensures name !in old(objectPools) ==> objectPools == old(objectPools) && obj == made
      ensures name in old(objectPools) ==>
        var (p, taken) := Take(old(objectPools[name]));
        objectPools == old(objectPools)[name := p] && obj == (if taken.Some? then taken else made)
      ensures memoryCache == old(memoryCache)
    {
      if name !in objectPools {
        return made;
      }
      var pool := objectPools[name];
      if |pool.objects| > 0 {
        pool := pool.(hits := pool.hits + 1);
        obj := Some(pool.objects[|pool.objects| - 1]);
        pool := pool.(objects := pool.objects[..|pool.objects| - 1]);
      } else {
        pool := pool.(misses := pool.misses + 1);
        obj := made;
      }
      objectPools := objectPools[name := pool];
    }

    /** `return_to_pool`: `Give` to a known pool; an unknown pool refuses. */
    method ReturnToPool(name: string, obj: T) returns (accepted: bool)
      requires Valid()
      modifies this
      ensures Valid()
      ensures name !in old(objectPools) ==> !accepted && objectPools == old(objectPools)
      ensures name in old(objectPools) ==>
        var (p, ok) := Give(old(objectPools[name]), obj);
        accepted == ok && objectPools == old(objectPools)[name := p]
      ensures memoryCache == old(memoryCache)
    {
      if name !in objectPools {
        return false;
      }
      var pool := objectPools[name];
      if |pool.objects| < pool.maxSize {
        objectPools := objectPools[name := pool.(objects := pool.objects + [obj])];
        return true;
      }
      return false;
    }

    /** Deletes `keys` from the cache one at a time, as the `del` loop does. */
    method DeleteKeys(keys: seq<string>)
      modifies this
      ensures memoryCache == Delete(old(memoryCache), keys)
      ensures objectPools == old(objectPools)
    {
      FilterAll(memoryCache.order, NotIn(keys[..0]));
      assert Delete(memoryCache, keys[..0]).entries == memoryCache.entries;
      for i := 0 to |keys|
        invariant memoryCache == Delete(old(memoryCache), keys[..i])
        invariant objectPools == old(objectPools)
      {
        var key := keys[i];
        DeletePrefixStep(old(memoryCache), keys, i);
        memoryCache := Cache(Filter(memoryCache.order, NotIn([key])), memoryCache.entries - {key});
      }
      assert keys[..|keys|] == keys;
    }

    /** `_optimize_memory_cache`: deletes `sorted[:-keep]` one key at a time when some
        entries are to be removed, and reports the removed count as computed. */
    method OptimizeMemoryCache() returns (report: CacheReport)
      requires Valid()
      modifies this
      ensures Valid()
      ensures memoryCache == EvictAsWritten(old(memoryCache), memoryLimitMb).cache
      ensures report == EvictAsWritten(old(memoryCache), memoryLimitMb).report
      ensures objectPools == old(objectPools)
    {
      if |memoryCache.entries| == 0 {
        return CacheReport(0, 0, None);
      }
      var start := memoryCache;
      var sorted := ByAccess(start);
      var keep := KeepCount(|sorted|, memoryLimitMb);
      var removed := |sorted| - keep;
      var evicted := if removed > 0 then SliceTo(sorted, -keep) else [];
      WrittenEvictedFrom(start, memoryLimitMb, sorted, keep);
      WrittenEviction(start, memoryLimitMb);
      if removed > 0 {
        DeleteKeys(evicted);
      } else {
        DeleteNothing(start);
      }
      report := ReportOf(|memoryCache.entries|, removed);
    }
  }

  // ---------------------------------------------------------------------------------
  // Summary

  datatype OptimizationSummary = OptimizationSummary(
    optimizationsApplied: nat, successfulOptimizations: nat, featuresEnabled: seq<string>)

  /** An optimization counts as successful unless it reports failure: a result without a
      success flag counts. */
  function Succeeded(success: Option<bool>): bool {
    success.GetOr(true)
  }

  /** An optimization that reports failure. */
  function Failed(success: Option<bool>): bool {
    success == Some(false)
  }

  /** `_generate_optimization_summary` over the success flag of each optimization. */
  function Summarize(successFlags: seq<Option<bool>>): (r: OptimizationSummary)
    ensures r.optimizationsApplied == |successFlags|
    ensures r.successfulOptimizations <= r.optimizationsApplied
    ensures r.successfulOptimizations == r.optimizationsApplied <==>
      forall k :: 0 <= k < |successFlags| ==> successFlags[k] != Some(false)
    ensures r.successfulOptimizations + Count(successFlags, Failed) == |successFlags|
    ensures |r.featuresEnabled| == 5
  {
    CountComplement(successFlags, Succeeded, Failed);
    OptimizationSummary(
      |successFlags|, Count(successFlags, Succeeded),
      ["Memory optimization", "Battery efficiency", "Network optimization",
       "Startup acceleration", "Performance monitoring"])
  }
}
