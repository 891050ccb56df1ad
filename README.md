# Opcache status adapter

A Dafny model of the core of OpcacheBundle: the `PhpOpcache` adapter that
turns a raw `opcache_get_status()` snapshot into value objects, and the
`Memory` value object it builds.

- `memory.dfy` (module `CacheMemory`) models `ByteCodeCache/Memory.php`.
  It is an immutable record of used, total and wasted memory in MB. From it
  come free memory, three percentages that are 0 for a cache of size 0, and
  the "full" check.
- `values.dfy` (module `CacheValues`) holds `Statistics`, `Script`,
  `ScriptSlots` and `ScriptCollection`. These are plain records of what the
  adapter passes to their constructors.
- `opcache.dfy` (module `OpcacheAdapter`) models `ByteCodeCache/PhpOpcache.php`.
  The raw input is `Raw = Null | NotArray | Array(Snapshot)`. A `Snapshot` is
  a complete record of the status entries the adapter reads. Normalisation
  replaces anything that is not an array with the fallback snapshot of a
  disabled cache. The accessors (`IsEnabled`, `GetMemory`, `GetStatistics`,
  `GetScripts`, `CalculateCacheSlots`) are functions over the stored snapshot.
- `opcache_properties.dfy` (module `OpcacheProperties`) holds the properties
  that span several accessors. It covers the fallback policy and the
  pass-through of arrays. It proves that the MB figures agree with the byte
  counts: free MB is the free bytes in MB, the percentages are byte ratios
  that add up to 100, and the cache is full exactly when no bytes are free.
  It also proves that the script list keeps its order.

Sizes, counters and byte counts are unbounded naturals. MB values and
percentages are exact `real`s. The `opcache_get_status()` call made when no
data is given becomes the parameter `runtimeStatus` of `New`.

The fallback `opcache_statistics` entry has no `num_cached_keys` key
(ByteCodeCache/PhpOpcache.php:148-153), yet `calculateCacheSlots` subtracts
from it (line 99). In PHP the missing key reads as null, with a notice or
warning about the undefined key, and null minus a count is the negated
count. The model keeps the key as `Option<nat>` and
reads `None` as 0 (`KeyCountOrZero`). The fallback therefore yields slots
(0, 0, 0).

## Model

| member | source | states |
|---|---|---|
| CacheMemory.NewMemory | ByteCodeCache/Memory.php:36-41 | the getters return exactly the constructor's arguments |
| CacheMemory.DefaultWastedIsZero | ByteCodeCache/Memory.php:36 | omitting the wasted figure is the same as passing 0 |
| CacheMemory.GetUsedInMb | ByteCodeCache/Memory.php:48-51 | returns the stored used figure, which for a NewMemory value is its first argument (see NewMemory) |
| CacheMemory.GetWastedInMb | ByteCodeCache/Memory.php:58-61 | returns the stored wasted figure, which for a NewMemory value is its third argument or 0 (see DefaultWastedIsZero) |
| CacheMemory.GetSizeInMb | ByteCodeCache/Memory.php:78-81 | returns the stored size, which for a NewMemory value is its second argument |
| CacheMemory.GetFreeInMb | ByteCodeCache/Memory.php:68-71 | used + wasted + free = size; free <= 0 iff used + wasted >= size |
| CacheMemory.GetPercentageOfMemory | ByteCodeCache/Memory.php:132-138 | size 0 gives 0 and nothing is divided; otherwise result * size = value * 100 |
| CacheMemory.GetUsedInPercent | ByteCodeCache/Memory.php:88-91 | 0 for size 0; otherwise percent * size = used * 100 (see also PercentagesAreRatios, PercentagesSumToHundred) |
| CacheMemory.GetWastedInPercent | ByteCodeCache/Memory.php:98-101 | 0 for size 0; otherwise percent * size = wasted * 100 |
| CacheMemory.GetFreeInPercent | ByteCodeCache/Memory.php:108-111 | 0 for size 0; otherwise percent * size = (size - used - wasted) * 100 |
| CacheMemory.IsFull | ByteCodeCache/Memory.php:121-124 | full iff used + wasted reach the size |
| CacheMemory.ZeroSizeGivesZeroPercentages | ByteCodeCache/Memory.php:132-136 | with size 0 the used, wasted and free percentages are all 0 |
| CacheMemory.PercentagesAreRatios | ByteCodeCache/Memory.php:88-111 | with size != 0 each percentage is its figure / size * 100 |
| CacheMemory.PercentagesSumToHundred | ByteCodeCache/Memory.php:88-138 | with size != 0, used% + wasted% + free% = 100 |
| CacheMemory.FullIffNoFreePercentage | ByteCodeCache/Memory.php:108-124 | with a positive size, full iff the free percentage is <= 0 |
| CacheMemory.PercentageWithinBounds | ByteCodeCache/Memory.php:132-138 | a figure between 0 and a positive size is 0..100 percent of it |
| OpcacheAdapter.CreateFallbackData | ByteCodeCache/PhpOpcache.php:139-156 | the fallback is disabled, all memory and statistics figures are 0, no scripts, and num_cached_keys is absent |
| OpcacheAdapter.Normalize | ByteCodeCache/PhpOpcache.php:113-119 | an array is kept unchanged; anything else becomes the fallback |
| OpcacheAdapter.New | ByteCodeCache/PhpOpcache.php:24-30 | given data is normalised; without data the runtime's status is normalised |
| OpcacheAdapter.IsEnabled | ByteCodeCache/PhpOpcache.php:37-40 | the stored snapshot's opcache_enabled flag; false for the fallback (see also ArrayInputIsKept, NonArrayInputYieldsDisabledEmptyCache) |
| OpcacheAdapter.BytesToMb | ByteCodeCache/PhpOpcache.php:127-130 | the MB value times 1024 * 1024 is the byte count; non-negative bytes give non-negative MB |
| OpcacheAdapter.GetMemory | ByteCodeCache/PhpOpcache.php:47-57 | used, wasted and size (= used + wasted + free bytes) are the byte counts divided by 1024 * 1024 |
| OpcacheAdapter.GetStatistics | ByteCodeCache/PhpOpcache.php:64-70 | hits and misses are the snapshot's counters |
| OpcacheAdapter.ToScript | ByteCodeCache/PhpOpcache.php:79-86 | a script keeps its path, hits and timestamp; its memory is the byte count in MB |
| OpcacheAdapter.MapScripts | ByteCodeCache/PhpOpcache.php:79-87 | one Script per record, at the same position |
| OpcacheAdapter.KeyCountOrZero | ByteCodeCache/PhpOpcache.php:99 | a missing num_cached_keys reads as 0; a present one as itself |
| OpcacheAdapter.CalculateCacheSlots | ByteCodeCache/PhpOpcache.php:96-105 | used = cached scripts, max = max cached keys, used + wasted = cached keys |
| OpcacheAdapter.GetScripts | ByteCodeCache/PhpOpcache.php:77-89 | one entry per snapshot script in the same order, with the slots of CalculateCacheSlots |
| OpcacheProperties.NonArrayInputYieldsDisabledEmptyCache | ByteCodeCache/PhpOpcache.php:113-117 | a non-array input gives a disabled cache, zero memory and statistics, no scripts and slots (0, 0, 0) |
| OpcacheProperties.NoDataFallsBackToRuntimeStatus | ByteCodeCache/PhpOpcache.php:24-30 | without data the runtime's status is used; a non-array status gives the disabled fallback |
| OpcacheProperties.ArrayInputIsKept | ByteCodeCache/PhpOpcache.php:37-40 | an array is stored unchanged and isEnabled is its opcache_enabled flag |
| OpcacheProperties.NormalizeIsIdempotent | ByteCodeCache/PhpOpcache.php:113-119 | normalising a normalised snapshot again changes nothing |
| OpcacheProperties.BytesToMbAdditive | ByteCodeCache/PhpOpcache.php:127-130 | the conversion distributes over sums of bytes |
| OpcacheProperties.MemoryFreeMatchesSnapshot | ByteCodeCache/PhpOpcache.php:47-57 | the derived free MB is the free bytes in MB; full iff no bytes are free |
| OpcacheProperties.MemoryPercentagesAreByteRatios | ByteCodeCache/PhpOpcache.php:47-57 | each percentage times the total bytes is its byte count times 100 |
| OpcacheProperties.MemoryPercentagesSplitTheCache | ByteCodeCache/PhpOpcache.php:47-57 | for a non-empty cache the three percentages add up to 100 and each lies in 0..100 |
| OpcacheProperties.MapScriptsDistributes | ByteCodeCache/PhpOpcache.php:79-87 | mapping a concatenation is the concatenation of the mappings |
| OpcacheProperties.SlotsAccountForEveryKey | ByteCodeCache/PhpOpcache.php:96-105 | used + wasted slots = cached keys; wasted >= 0 iff keys >= cached scripts |
| OpcacheProperties.ConsistentSnapshotCountsMatch | Tests/ByteCodeCache/PhpOpcacheTest.php:148-155 | when the script list is as long as num_cached_scripts, the collection's count equals the used slots |
| OpcacheProperties.ActiveCacheSample | Tests/ByteCodeCache/PhpOpcacheTest.php:62-110 | the sample snapshot gives a 64 MB cache, its used and wasted MB, and 5247 hits with 989 misses |

## Left out

- The `opcache_get_status()` call is a runtime function. It becomes the parameter `runtimeStatus` of `New`. That parameter can only stand for a returned value. The call can also fail instead of returning: without the opcache extension the function does not exist, and under an `opcache.restrict_api` setting it emits a warning and returns false. Neither the failure nor the warning is modelled; the false result is `NotArray`.
- KeyCountOrZero: keeps only the value 0 that PHP uses for the missing `num_cached_keys` key of the fallback snapshot. Reading that key also makes PHP emit a diagnostic: an "Undefined index" notice in PHP 7, an "Undefined array key" warning in PHP 8. An error handler, such as Symfony's in debug mode, may turn that diagnostic into an exception, so `scripts()` on a disabled cache can throw. The model does not capture the diagnostic or the exception.
- MapScripts: `array_map` on a single array keeps its keys, and the runtime keys the `scripts` entry by full path, so `scripts()` returns an array keyed by path. The model's `seq` keeps the order but drops those keys. Each key repeats its record's `fullPath`, which the Script keeps.
- `new \DateTimeImmutable('@' . timestamp)` is a library call. A script's `lastUsedAt` stays the integer unix timestamp.
- Floating point: `bytesToMb` and the percentages compute in IEEE doubles. The model uses exact reals, so rounding is not modelled.
- PHP integer overflow of `used + wasted + free` into a float is not modelled; byte counts are unbounded.
- The `Statistics`, `Script`, `ScriptSlots`, `ScriptCollection` and `ByteCodeCacheInterface` classes are not part of this model. They appear only as plain records that the adapter fills in. The hit-rate formula of `Statistics` is left out with them.
- `getConfiguration` and a constructor with a configuration argument are not in `PhpOpcache.php`, so they are not modelled.
- A snapshot that is an array but lacks entries the adapter reads is undefined in the source. A `Snapshot` is a complete record; the one missing entry modelled is `num_cached_keys`, which the fallback lacks.
- `isEnabled` casts `opcache_enabled` with `(bool)`; the model takes the flag as a boolean already.
