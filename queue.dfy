/** Queue-family selection: the scan inside `getComputeQueueFamilyIndex`. */
module Queue {
  import opened Vulkan

  const QUEUE_COMPUTE_BIT: bv32 := 0x2

  /** One entry of vkGetPhysicalDeviceQueueFamilyProperties. */
  datatype QueueFamilyProperties = QueueFamilyProperties(queueFlags: bv32, queueCount: uint32)

  /** A family the program can use: it has a queue and supports compute. */
  predicate IsComputeFamily(family: QueueFamilyProperties) {
    family.queueCount > 0 && family.queueFlags & QUEUE_COMPUTE_BIT != 0
  }

  /** The loop of getComputeQueueFamilyIndex: stops at the first compute
      family, or runs off the end and returns the family count. */
  method ScanQueueFamilies(families: seq<QueueFamilyProperties>) returns (i: nat)
    ensures i <= |families|
    ensures i < |families| ==> IsComputeFamily(families[i])
    ensures forall j :: 0 <= j < i ==> !IsComputeFamily(families[j])
  {
    i := 0;
    while i < |families|
      invariant 0 <= i <= |families|
      invariant forall j :: 0 <= j < i ==> !IsComputeFamily(families[j])
    {
      var props := families[i];
      if props.queueCount > 0 && props.queueFlags & QUEUE_COMPUTE_BIT != 0 {
        break;
      }
      i := i + 1;
    }
  }
}
