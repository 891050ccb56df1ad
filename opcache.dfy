/** The opcache status adapter: it normalises a raw status snapshot once,
    at construction, and derives memory figures, hit/miss statistics and
    the per-script list with its slot usage from the stored snapshot. */
module OpcacheAdapter {
  import opened CacheMemory
  import opened CacheValues

  datatype Option<T> = None | Some(value: T)

  /** The `memory_usage` entry of a status snapshot, in bytes. */
  datatype MemoryUsage = MemoryUsage(usedMemory: nat, freeMemory: nat, wastedMemory: nat)

  /** The `opcache_statistics` entry. numCachedKeys is None where the
      entry has no `num_cached_keys` key, as in the fallback snapshot. */
  datatype OpcacheStatistics = OpcacheStatistics(
    hits: nat,
    misses: nat,
    numCachedScripts: nat,
    numCachedKeys: Option<nat>,
    maxCachedKeys: nat)

  /** One record of the `scripts` entry. */
  datatype ScriptData = ScriptData(fullPath: string, memoryConsumption: nat, hits: nat, lastUsedTimestamp: int)

  /** A status snapshot with every entry the adapter reads. */
  datatype Snapshot = Snapshot(
    opcacheEnabled: bool,
    memoryUsage: MemoryUsage,
    opcacheStatistics: OpcacheStatistics,
    scripts: seq<ScriptData>)

  /** What the constructor may be given: nothing, a value that is not an
      array (such as `false`), or a status array. */
  datatype Raw = Null | NotArray | Array(snapshot: Snapshot)

  /** The adapter; its only state is the normalised snapshot, never changed after construction. */
  datatype PhpOpcache = PhpOpcache(data: Snapshot)

  /** Bytes per MB (1024 * 1024). */
  const BytesPerMb: real := 1048576.0

  /** The snapshot used when no status array is available: a disabled, empty cache. */
  function CreateFallbackData(): (s: Snapshot)
    ensures !s.opcacheEnabled && s.scripts == []
    ensures s.memoryUsage.usedMemory == 0 && s.memoryUsage.freeMemory == 0 && s.memoryUsage.wastedMemory == 0
    ensures s.opcacheStatistics.hits == 0 && s.opcacheStatistics.misses == 0
    ensures s.opcacheStatistics.numCachedScripts == 0 && s.opcacheStatistics.maxCachedKeys == 0
    ensures s.opcacheStatistics.numCachedKeys.None?
  {
    Snapshot(
      false,
      MemoryUsage(0, 0, 0),
      OpcacheStatistics(0, 0, 0, None, 0),
      [])
  }

  /** Anything that is not an array is replaced by the fallback; an array is kept as it is. */
  function Normalize(cacheData: Raw): (s: Snapshot)
    ensures cacheData.Array? ==> s == cacheData.snapshot
    ensures !cacheData.Array? ==> s == CreateFallbackData()
  {
    match cacheData
    case Array(snapshot) => snapshot
    case _ => CreateFallbackData()
  }

  /** The constructor. Without data (Null) it asks the runtime for its status;
      runtimeStatus stands for what that call returns. */
  function New(cacheData: Raw, runtimeStatus: Raw): (o: PhpOpcache)
    ensures cacheData.Array? ==> o.data == cacheData.snapshot
    ensures cacheData.NotArray? ==> o.data == CreateFallbackData()
    ensures cacheData.Null? ==> o.data == Normalize(runtimeStatus)
  {
    var effective := if cacheData.Null? then runtimeStatus else cacheData;
    PhpOpcache(Normalize(effective))
  }

  /** Whether the cache is active: the stored snapshot's flag, false for the fallback. */
  function IsEnabled(o: PhpOpcache): (enabled: bool)
    ensures enabled <==> o.data.opcacheEnabled
    ensures o.data == CreateFallbackData() ==> !enabled
  {
    o.data.opcacheEnabled
  }

  /** Converts a byte count into MB; multiplying back gives the bytes again. */
  function BytesToMb(bytes: int): (mb: real)
    ensures mb * BytesPerMb == bytes as real
    ensures bytes >= 0 ==> mb >= 0.0
  {
    bytes as real / 1024.0 / 1024.0
  }

  /** Used, total (used + wasted + free) and wasted memory, in MB. */
  function GetMemory(o: PhpOpcache): (m: CacheMemory.Memory)
    ensures GetUsedInMb(m) * BytesPerMb == o.data.memoryUsage.usedMemory as real
    ensures GetWastedInMb(m) * BytesPerMb == o.data.memoryUsage.wastedMemory as real
    ensures GetSizeInMb(m) * BytesPerMb
         == (o.data.memoryUsage.usedMemory + o.data.memoryUsage.wastedMemory + o.data.memoryUsage.freeMemory) as real
  {
    var usedInBytes := o.data.memoryUsage.usedMemory;
    var wastedInBytes := o.data.memoryUsage.wastedMemory;
    var sizeInBytes := usedInBytes + wastedInBytes + o.data.memoryUsage.freeMemory;
    NewMemory(BytesToMb(usedInBytes), BytesToMb(sizeInBytes), BytesToMb(wastedInBytes))
  }

  /** The hit and miss counters, passed through. */
  function GetStatistics(o: PhpOpcache): (st: CacheValues.Statistics)
    ensures st.hits == o.data.opcacheStatistics.hits
    ensures st.misses == o.data.opcacheStatistics.misses
  {
    CacheValues.Statistics(o.data.opcacheStatistics.hits, o.data.opcacheStatistics.misses)
  }

  /** One script record as a Script value. */
  function ToScript(d: ScriptData): (s: Script)
    ensures s.fullPath == d.fullPath && s.hits == d.hits && s.lastUsedAt == d.lastUsedTimestamp
    ensures s.memoryConsumptionInMb * BytesPerMb == d.memoryConsumption as real
  {
    Script(d.fullPath, BytesToMb(d.memoryConsumption), d.hits, d.lastUsedTimestamp)
  }

  /** Maps every script record, keeping the order. */
  function MapScripts(records: seq<ScriptData>): (r: seq<Script>)
    ensures |r| == |records|
    ensures forall i :: 0 <= i < |records| ==> r[i] == ToScript(records[i])
  {
    if records == [] then [] else [ToScript(records[0])] + MapScripts(records[1..])
  }

  /** A PHP null used in subtraction counts as 0. */
  function KeyCountOrZero(k: Option<nat>): (n: nat)
    ensures k.Some? ==> n == k.value
    ensures k.None? ==> n == 0
  {
    match k
    case Some(v) => v
    case None => 0
  }

  /** Slot usage: used = cached scripts, max = max cached keys, wasted = cached keys - cached scripts. */
  function CalculateCacheSlots(o: PhpOpcache): (slots: ScriptSlots)
    ensures slots.used == o.data.opcacheStatistics.numCachedScripts
    ensures slots.max == o.data.opcacheStatistics.maxCachedKeys
    ensures slots.used + slots.wasted == KeyCountOrZero(o.data.opcacheStatistics.numCachedKeys)
  {
    var stats := o.data.opcacheStatistics;
    var cachedScripts := stats.numCachedScripts;
    var wasted := KeyCountOrZero(stats.numCachedKeys) - cachedScripts;
    ScriptSlots(cachedScripts, stats.maxCachedKeys, wasted)
  }

  /** The cached scripts, in snapshot order, with the slot usage. */
  function GetScripts(o: PhpOpcache): (c: ScriptCollection)
    ensures |c.scripts| == |o.data.scripts|
    ensures forall i :: 0 <= i < |o.data.scripts| ==> c.scripts[i] == ToScript(o.data.scripts[i])
    ensures c.slots == CalculateCacheSlots(o)
  {
    ScriptCollection(MapScripts(o.data.scripts), CalculateCacheSlots(o))
  }
}
