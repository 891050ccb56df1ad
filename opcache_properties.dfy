/** What the adapter promises across its accessors: the fallback policy,
    the pass-through of array snapshots, and the agreement between the
    memory figures in MB and the byte counts they come from. */
module OpcacheProperties {
  import opened CacheMemory
  import opened CacheValues
  import opened OpcacheAdapter

  /** Any input that is not an array (such as `false`) gives a disabled
      cache whose every figure is zero and whose script list is empty. */
  lemma NonArrayInputYieldsDisabledEmptyCache(runtimeStatus: Raw)
    ensures var o := New(NotArray, runtimeStatus);
      && !IsEnabled(o)
      && GetMemory(o) == CacheMemory.Memory(0.0, 0.0, 0.0)
      && GetStatistics(o) == CacheValues.Statistics(0, 0)
      && GetScripts(o) == ScriptCollection([], ScriptSlots(0, 0, 0))
  {
  }

  /** Without data the runtime's status is used; when the runtime reports
      no array either, the cache is the disabled, empty fallback. */
  lemma NoDataFallsBackToRuntimeStatus(runtimeStatus: Raw)
    ensures New(Null, runtimeStatus) == New(runtimeStatus, runtimeStatus)
    ensures !runtimeStatus.Array? ==> !IsEnabled(New(Null, runtimeStatus))
    ensures !runtimeStatus.Array? ==> GetScripts(New(Null, runtimeStatus)).slots == ScriptSlots(0, 0, 0)
  {
  }

  /** An array is stored unchanged, and the enabled flag is the snapshot's own. */
  lemma ArrayInputIsKept(s: Snapshot, runtimeStatus: Raw)
    ensures New(Array(s), runtimeStatus).data == s
    ensures IsEnabled(New(Array(s), runtimeStatus)) == s.opcacheEnabled
  {
  }

  /** Normalising is idempotent: a normalised snapshot, passed in again, is kept. */
  lemma NormalizeIsIdempotent(cacheData: Raw)
    ensures Normalize(Array(Normalize(cacheData))) == Normalize(cacheData)
  {
  }

  /** Bytes to MB distributes over sums of bytes. */
  lemma BytesToMbAdditive(a: int, b: int)
    ensures BytesToMb(a + b) == BytesToMb(a) + BytesToMb(b)
  {
  }

  /** The free memory the Memory value derives is the snapshot's free bytes in MB;
      so the cache is full exactly when the snapshot reports no free bytes. */
  lemma MemoryFreeMatchesSnapshot(o: PhpOpcache)
    ensures GetFreeInMb(GetMemory(o)) == BytesToMb(o.data.memoryUsage.freeMemory)
    ensures IsFull(GetMemory(o)) <==> o.data.memoryUsage.freeMemory == 0
  {
  }

  /** The memory percentages are byte ratios: the 1024 * 1024 scale cancels out. */
  lemma MemoryPercentagesAreByteRatios(o: PhpOpcache)
    requires o.data.memoryUsage.usedMemory + o.data.memoryUsage.wastedMemory + o.data.memoryUsage.freeMemory > 0
    ensures var total := (o.data.memoryUsage.usedMemory + o.data.memoryUsage.wastedMemory + o.data.memoryUsage.freeMemory) as real;
      && GetUsedInPercent(GetMemory(o)) * total == o.data.memoryUsage.usedMemory as real * 100.0
      && GetWastedInPercent(GetMemory(o)) * total == o.data.memoryUsage.wastedMemory as real * 100.0
      && GetFreeInPercent(GetMemory(o)) * total == o.data.memoryUsage.freeMemory as real * 100.0
  {
  }

  /** With a non-empty cache, used, wasted and free memory make up 100 percent, and each lies in 0..100. */
  lemma MemoryPercentagesSplitTheCache(o: PhpOpcache)
    requires o.data.memoryUsage.usedMemory + o.data.memoryUsage.wastedMemory + o.data.memoryUsage.freeMemory > 0
    ensures GetUsedInPercent(GetMemory(o)) + GetWastedInPercent(GetMemory(o)) + GetFreeInPercent(GetMemory(o)) == 100.0
    ensures 0.0 <= GetUsedInPercent(GetMemory(o)) <= 100.0
    ensures 0.0 <= GetWastedInPercent(GetMemory(o)) <= 100.0
    ensures 0.0 <= GetFreeInPercent(GetMemory(o)) <= 100.0
  {
    var m := GetMemory(o);
    MemoryFreeMatchesSnapshot(o);
    PercentagesSumToHundred(m);
    PercentageWithinBounds(m, GetUsedInMb(m));
    PercentageWithinBounds(m, GetWastedInMb(m));
    PercentageWithinBounds(m, GetFreeInMb(m));
  }

  /** Mapping the script records keeps their order: it distributes over concatenation. */
  lemma MapScriptsDistributes(a: seq<ScriptData>, b: seq<ScriptData>)
    ensures MapScripts(a + b) == MapScripts(a) + MapScripts(b)
  {
  }

  /** Wasted slots are the cached keys that hold no cached script. */
  lemma SlotsAccountForEveryKey(o: PhpOpcache, keys: nat)
    requires o.data.opcacheStatistics.numCachedKeys == Some(keys)
    ensures GetScripts(o).slots.used + GetScripts(o).slots.wasted == keys
    ensures GetScripts(o).slots.wasted >= 0 <==> keys >= o.data.opcacheStatistics.numCachedScripts
  {
  }

  /** When the snapshot is consistent, the collection holds as many scripts as slots are used. */
  lemma ConsistentSnapshotCountsMatch(o: PhpOpcache)
    requires |o.data.scripts| == o.data.opcacheStatistics.numCachedScripts
    ensures |GetScripts(o).scripts| == GetScripts(o).slots.used
  {
  }

  /** The figures of the active-cache sample: 29836904 bytes used and 6619288
      wasted in a 64 MB cache; 5247 hits and 989 misses. The free figure,
      30652672 bytes, is chosen so that the total is exactly 64 MiB
      (67108864 bytes). */
  lemma ActiveCacheSample(o: PhpOpcache)
    requires o.data.memoryUsage == MemoryUsage(29836904, 30652672, 6619288)
    requires o.data.opcacheStatistics.hits == 5247 && o.data.opcacheStatistics.misses == 989
    ensures GetSizeInMb(GetMemory(o)) == 64.0
    ensures GetUsedInMb(GetMemory(o)) == 29836904.0 / 1048576.0
    ensures GetWastedInMb(GetMemory(o)) == 6619288.0 / 1048576.0
    ensures GetStatistics(o).hits == 5247 && GetStatistics(o).misses == 989
  {
  }
}
