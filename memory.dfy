/** Memory usage of the byte code cache: an immutable record of the used,
    total and wasted memory in MB, with free memory, percentages and a
    "full" check derived from it. MB values are exact reals. */
module CacheMemory {

  /** The three stored figures; nothing updates them after construction. */
  datatype Memory = Memory(usedInMb: real, sizeInMb: real, wastedInMb: real)

  /** The constructor; the wasted memory defaults to 0 when omitted. */
  function NewMemory(usageInMb: real, sizeInMb: real, wastedInMb: real := 0.0): (m: Memory)
    ensures GetUsedInMb(m) == usageInMb
    ensures GetSizeInMb(m) == sizeInMb
    ensures GetWastedInMb(m) == wastedInMb
  {
    Memory(usageInMb, sizeInMb, wastedInMb)
  }

  /** The stored figures, unchanged: for a NewMemory value, its arguments. */
  function GetUsedInMb(m: Memory): (r: real)
    ensures r == m.usedInMb
  {
    m.usedInMb
  }

  function GetWastedInMb(m: Memory): (r: real)
    ensures r == m.wastedInMb
  {
    m.wastedInMb
  }

  function GetSizeInMb(m: Memory): (r: real)
    ensures r == m.sizeInMb
  {
    m.sizeInMb
  }

  /** What is neither used nor wasted; negative when the figures overshoot the size. */
  function GetFreeInMb(m: Memory): (r: real)
    ensures GetUsedInMb(m) + GetWastedInMb(m) + r == GetSizeInMb(m)
    ensures r <= 0.0 <==> GetUsedInMb(m) + GetWastedInMb(m) >= GetSizeInMb(m)
  {
    GetSizeInMb(m) - (GetUsedInMb(m) + GetWastedInMb(m))
  }

  /** valueInMb as a percentage of the size; 0 for a cache of size 0, where nothing is divided. */
  function GetPercentageOfMemory(m: Memory, valueInMb: real): (r: real)
    ensures GetSizeInMb(m) == 0.0 ==> r == 0.0
    ensures GetSizeInMb(m) != 0.0 ==> r * GetSizeInMb(m) == valueInMb * 100.0
  {
    if GetSizeInMb(m) == 0.0 then 0.0 else (valueInMb / GetSizeInMb(m)) * 100.0
  }

  /** The used memory as a percentage of the size (0 for size 0). */
  function GetUsedInPercent(m: Memory): (r: real)
    ensures GetSizeInMb(m) == 0.0 ==> r == 0.0
    ensures GetSizeInMb(m) != 0.0 ==> r * GetSizeInMb(m) == GetUsedInMb(m) * 100.0
  {
    GetPercentageOfMemory(m, GetUsedInMb(m))
  }

  /** The wasted memory as a percentage of the size (0 for size 0). */
  function GetWastedInPercent(m: Memory): (r: real)
    ensures GetSizeInMb(m) == 0.0 ==> r == 0.0
    ensures GetSizeInMb(m) != 0.0 ==> r * GetSizeInMb(m) == GetWastedInMb(m) * 100.0
  {
    GetPercentageOfMemory(m, GetWastedInMb(m))
  }

  /** The free memory as a percentage of the size (0 for size 0). */
  function GetFreeInPercent(m: Memory): (r: real)
    ensures GetSizeInMb(m) == 0.0 ==> r == 0.0
    ensures GetSizeInMb(m) != 0.0
      ==> r * GetSizeInMb(m) == (GetSizeInMb(m) - GetUsedInMb(m) - GetWastedInMb(m)) * 100.0
  {
    GetPercentageOfMemory(m, GetFreeInMb(m))
  }

  /** The cache is full once used and wasted memory reach its size. */
  function IsFull(m: Memory): (full: bool)
    ensures full <==> GetUsedInMb(m) + GetWastedInMb(m) >= GetSizeInMb(m)
  {
    GetFreeInMb(m) <= 0.0
  }

  /** Omitting the wasted figure is the same as passing 0. */
  lemma DefaultWastedIsZero(usageInMb: real, sizeInMb: real)
    ensures GetWastedInMb(NewMemory(usageInMb, sizeInMb)) == 0.0
    ensures NewMemory(usageInMb, sizeInMb) == NewMemory(usageInMb, sizeInMb, 0.0)
  {
  }

  /** With a size of 0 every percentage is 0. */
  lemma ZeroSizeGivesZeroPercentages(m: Memory)
    requires GetSizeInMb(m) == 0.0
    ensures GetUsedInPercent(m) == 0.0
    ensures GetWastedInPercent(m) == 0.0
    ensures GetFreeInPercent(m) == 0.0
  {
  }

  /** With a non-zero size each percentage is its figure divided by the size, times 100. */
  lemma PercentagesAreRatios(m: Memory)
    requires GetSizeInMb(m) != 0.0
    ensures GetUsedInPercent(m) == GetUsedInMb(m) / GetSizeInMb(m) * 100.0
    ensures GetWastedInPercent(m) == GetWastedInMb(m) / GetSizeInMb(m) * 100.0
    ensures GetFreeInPercent(m) == GetFreeInMb(m) / GetSizeInMb(m) * 100.0
  {
  }

  /** Used, wasted and free memory split the whole cache: their percentages add up to 100. */
  lemma PercentagesSumToHundred(m: Memory)
    requires GetSizeInMb(m) != 0.0
    ensures GetUsedInPercent(m) + GetWastedInPercent(m) + GetFreeInPercent(m) == 100.0
  {
  }

  /** For a positive size, a full cache is one whose free percentage is not positive. */
  lemma FullIffNoFreePercentage(m: Memory)
    requires GetSizeInMb(m) > 0.0
    ensures IsFull(m) <==> GetFreeInPercent(m) <= 0.0
  {
  }

  /** A figure between 0 and a positive size is between 0 and 100 percent of it. */
  lemma PercentageWithinBounds(m: Memory, valueInMb: real)
    requires GetSizeInMb(m) > 0.0
    requires 0.0 <= valueInMb <= GetSizeInMb(m)
    ensures 0.0 <= GetPercentageOfMemory(m, valueInMb) <= 100.0
  {
    RatioWithinUnit(valueInMb, GetSizeInMb(m));
  }

  /** A part of a positive whole is between 0 and 1 of it. */
  lemma RatioWithinUnit(part: real, whole: real)
    requires whole > 0.0 && 0.0 <= part <= whole
    ensures 0.0 <= part / whole <= 1.0
  {
  }
}
