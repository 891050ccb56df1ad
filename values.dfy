/** The value objects the adapter fills in. Their own classes are not part
    of this model; here they are plain immutable records of what the
    adapter passes to their constructors. */
module CacheValues {

  /** Hit and miss counters of the cache. */
  datatype Statistics = Statistics(hits: int, misses: int)

  /** One cached script; lastUsedAt stays a unix timestamp in seconds. */
  datatype Script = Script(fullPath: string, memoryConsumptionInMb: real, hits: int, lastUsedAt: int)

  /** Slot usage of the cache's key table; wasted may be negative on inconsistent data. */
  datatype ScriptSlots = ScriptSlots(used: int, max: int, wasted: int)

  /** The scripts in the cache's enumeration order, with the slot usage. */
  datatype ScriptCollection = ScriptCollection(scripts: seq<Script>, slots: ScriptSlots)
}
