/** Memory-type selection: the device's memory-type table and the first-match
    search `findMemoryType`. */
module Memory {
  import opened Vulkan

  /** VK_MAX_MEMORY_TYPES: the table of VkPhysicalDeviceMemoryProperties has
      room for at most 32 entries, so every index fits a bit of a 32-bit mask. */
  const MAX_MEMORY_TYPES: nat := 32

  const MEMORY_PROPERTY_DEVICE_LOCAL: bv32 := 0x1
  const MEMORY_PROPERTY_HOST_VISIBLE: bv32 := 0x2
  const MEMORY_PROPERTY_HOST_COHERENT: bv32 := 0x4

  /** One entry of the memory-type table. */
  datatype MemoryType = MemoryType(propertyFlags: bv32, heapIndex: uint32)

  /** `1 << i` as a 32-bit mask. */
  function Bit(i: nat): bv32
    requires i < 32
  {
    (1 as bv32) << i
  }

  /** Table entry `i` is allowed by `typeBits` and offers every flag of `properties`. */
  predicate Suitable(memoryTypes: seq<MemoryType>, typeBits: bv32, properties: bv32, i: nat)
    requires |memoryTypes| <= MAX_MEMORY_TYPES
  {
    i < |memoryTypes|
    && typeBits & Bit(i) != 0
    && memoryTypes[i].propertyFlags & properties == properties
  }

  /** `i` is the least suitable index. */
  ghost predicate IsFirstSuitable(memoryTypes: seq<MemoryType>, typeBits: bv32, properties: bv32, i: nat)
    requires |memoryTypes| <= MAX_MEMORY_TYPES
  {
    Suitable(memoryTypes, typeBits, properties, i)
    && forall j :: 0 <= j < i ==> !Suitable(memoryTypes, typeBits, properties, j)
  }

  ghost predicate NoneSuitable(memoryTypes: seq<MemoryType>, typeBits: bv32, properties: bv32)
    requires |memoryTypes| <= MAX_MEMORY_TYPES
  {
    forall i :: 0 <= i < |memoryTypes| ==> !Suitable(memoryTypes, typeBits, properties, i)
  }

  /** The least suitable index at or after `from`, or `|memoryTypes|` when
      there is none. */
  function FirstSuitable(memoryTypes: seq<MemoryType>, typeBits: bv32, properties: bv32, from: nat): (i: nat)
    requires |memoryTypes| <= MAX_MEMORY_TYPES && from <= |memoryTypes|
    ensures from <= i <= |memoryTypes|
    ensures i < |memoryTypes| ==> Suitable(memoryTypes, typeBits, properties, i)
    ensures forall j :: from <= j < i ==> !Suitable(memoryTypes, typeBits, properties, j)
    decreases |memoryTypes| - from
  {
    if from == |memoryTypes| || Suitable(memoryTypes, typeBits, properties, from) then from
    else FirstSuitable(memoryTypes, typeBits, properties, from + 1)
  }

  /** Searching from the start finds the first suitable index, and finds
      nothing exactly when no index is suitable. */
  lemma FirstSuitableFromStart(memoryTypes: seq<MemoryType>, typeBits: bv32, properties: bv32)
    requires |memoryTypes| <= MAX_MEMORY_TYPES
    ensures var i := FirstSuitable(memoryTypes, typeBits, properties, 0);
      && (i == |memoryTypes| <==> NoneSuitable(memoryTypes, typeBits, properties))
      && (i < |memoryTypes| ==> IsFirstSuitable(memoryTypes, typeBits, properties, i))
  {
  }

  /** findMemoryType: scans the table in ascending order and stores the first
      suitable index into `memoryTypeIndex`; when there is none it returns
      VK_ERROR_INITIALIZATION_FAILED and leaves `memoryTypeIndex` as it was. */
  method FindMemoryType(memoryTypes: seq<MemoryType>, memoryTypeBits: bv32, properties: bv32,
                        memoryTypeIndex: nat)
    returns (res: VkResult, memoryTypeIndex': nat)
    requires |memoryTypes| <= MAX_MEMORY_TYPES
    ensures res == Success || res == ErrorInitializationFailed
    ensures res == Success <==> !NoneSuitable(memoryTypes, memoryTypeBits, properties)
    ensures res == Success ==> IsFirstSuitable(memoryTypes, memoryTypeBits, properties, memoryTypeIndex')
    ensures res == Success ==> memoryTypeIndex' == FirstSuitable(memoryTypes, memoryTypeBits, properties, 0)
    ensures res != Success ==> memoryTypeIndex' == memoryTypeIndex
  {
    var i := 0;
    while i < |memoryTypes|
      invariant 0 <= i <= |memoryTypes|
      invariant forall j :: 0 <= j < i ==> !Suitable(memoryTypes, memoryTypeBits, properties, j)
    {
      if memoryTypeBits & Bit(i) != 0 && memoryTypes[i].propertyFlags & properties == properties {
        assert Suitable(memoryTypes, memoryTypeBits, properties, i);
        return Success, i;
      }
      i := i + 1;
    }
    return ErrorInitializationFailed, memoryTypeIndex;
  }

  /** An all-zero type mask allows no entry, so the search always fails. */
  lemma ZeroMaskNeverSuitable(memoryTypes: seq<MemoryType>, properties: bv32)
    requires |memoryTypes| <= MAX_MEMORY_TYPES
    ensures NoneSuitable(memoryTypes, 0, properties)
  {
  }

  /** Asking for no property flags accepts the first index the mask allows. */
  lemma NoPropertiesAcceptsFirstAllowed(memoryTypes: seq<MemoryType>, typeBits: bv32, i: nat)
    requires |memoryTypes| <= MAX_MEMORY_TYPES
    requires i < |memoryTypes| && typeBits & Bit(i) != 0
    requires forall j :: 0 <= j < i ==> typeBits & Bit(j) == 0
    ensures IsFirstSuitable(memoryTypes, typeBits, 0, i)
  {
  }

  /** The first suitable index is unique. */
  lemma FirstSuitableUnique(memoryTypes: seq<MemoryType>, typeBits: bv32, properties: bv32, i: nat, j: nat)
    requires |memoryTypes| <= MAX_MEMORY_TYPES
    requires IsFirstSuitable(memoryTypes, typeBits, properties, i)
    requires IsFirstSuitable(memoryTypes, typeBits, properties, j)
    ensures i == j
  {
  }
}
