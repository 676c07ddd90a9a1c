/** Value types shared by the whole model: the C fixed-width integers, the
    VkResult codes, opaque driver handles, and the commands a command buffer
    can hold. Every call into the Vulkan driver is replaced by a value the
    caller supplies (its result code and, for a create call, its handle). */
module Vulkan {

  const UINT32_LIMIT: int := 0x1_0000_0000
  const UINT64_LIMIT: int := 0x1_0000_0000_0000_0000

  type uint32 = x: int | 0 <= x < 0x1_0000_0000
  type uint64 = x: int | 0 <= x < 0x1_0000_0000_0000_0000

  /** A value converted to `uint32_t`: reduced modulo 2^32, and unchanged
      when it fits. */
  function Wrap32(x: nat): (r: uint32)
    ensures x < UINT32_LIMIT ==> r == x
  {
    x % UINT32_LIMIT
  }

  /** A value converted to `uint64_t`: reduced modulo 2^64, and unchanged
      when it fits. */
  function Wrap64(x: nat): (r: uint64)
    ensures x < UINT64_LIMIT ==> r == x
  {
    x % UINT64_LIMIT
  }

  /** A three-component array `uint32_t v[3]` (problem size, workgroup shape,
      strides, dispatch grid). */
  type Extent = s: seq<uint32> | |s| == 3 witness [0, 0, 0]

  /** An opaque object handle produced by the driver. */
  type Handle = nat

  datatype Option<T> = None | Some(value: T)

  /** The VkResult codes the model distinguishes. VK_TIMEOUT is not an error
      code in Vulkan, but every caller here treats anything other than
      VK_SUCCESS as a failure. */
  datatype VkResult =
    | Success
    | NotReady
    | Timeout
    | ErrorOutOfHostMemory
    | ErrorOutOfDeviceMemory
    | ErrorInitializationFailed
    | ErrorDeviceLost
    | ErrorMemoryMapFailed

  /** What the driver answers to one create or allocate call: its result code
      and, when that is VK_SUCCESS, the new object's handle. */
  datatype Created = Created(result: VkResult, handle: Handle)

  /** The index of the first call in `results` that did not return VK_SUCCESS,
      or |results| when all of them did: the point where a chain of
      `res = call(); if (res != VK_SUCCESS) return res;` stops. */
  function FailAt(results: seq<VkResult>): (k: nat)
    ensures k <= |results|
    ensures forall i :: 0 <= i < k ==> results[i] == Success
    ensures k < |results| ==> results[k] != Success
  {
    if results == [] then 0
    else if results[0] != Success then 0
    else 1 + FailAt(results[1..])
  }

  /** FailAt is determined by its contract: a chain that succeeds on its
      first `k` calls and fails on the next (or has no next) stops at `k`. */
  lemma FailAtIs(results: seq<VkResult>, k: nat)
    requires k <= |results|
    requires forall i :: 0 <= i < k ==> results[i] == Success
    requires k < |results| ==> results[k] != Success
    ensures FailAt(results) == k
  {
  }

  /** Two chains run one after the other stop inside the first when it
      fails, and otherwise where the second stops. */
  lemma FailAtConcat(a: seq<VkResult>, b: seq<VkResult>)
    ensures FailAt(a + b) == if FailAt(a) < |a| then FailAt(a) else |a| + FailAt(b)
    ensures Propagated(a + b) == if FailAt(a) < |a| then Propagated(a) else Propagated(b)
  {
    var k := if FailAt(a) < |a| then FailAt(a) else |a| + FailAt(b);
    assert forall i :: 0 <= i < k ==> (a + b)[i] == Success by {
      forall i | 0 <= i < k ensures (a + b)[i] == Success {
        if i >= |a| {
          assert (a + b)[i] == b[i - |a|];
        }
      }
    }
    if k == |a| + FailAt(b) && FailAt(b) < |b| {
      assert (a + b)[k] == b[FailAt(b)];
    }
    if FailAt(a) < |a| {
      assert (a + b)[k] == a[k];
    }
    FailAtIs(a + b, k);
  }

  /** The code such a chain returns: the first failure, or VK_SUCCESS. */
  function Propagated(results: seq<VkResult>): (r: VkResult)
    ensures r == Success <==> forall i :: 0 <= i < |results| ==> results[i] == Success
    ensures r != Success ==> r == results[FailAt(results)]
  {
    var k := FailAt(results);
    if k < |results| then results[k] else Success
  }

  /** A chain whose first call succeeds stops one position later than its
      tail does, and returns what its tail returns. */
  lemma SucceededFirst(results: seq<VkResult>)
    requires |results| > 0 && results[0] == Success
    ensures FailAt(results) == 1 + FailAt(results[1..])
    ensures Propagated(results) == Propagated(results[1..])
  {
  }

  /** Memory access kinds a pipeline barrier orders. */
  datatype Access = ShaderWriteAccess | ShaderReadAccess

  /** VkBufferCopy: one region of a buffer-to-buffer copy. */
  datatype BufferCopy = BufferCopy(srcOffset: uint64, dstOffset: uint64, size: uint64)

  /** The commands this program records into a command buffer. All of them
      use the compute bind point and the compute shader stage. */
  datatype Command =
    | PushConstants(layout: Handle, offset: nat, size: nat, pushID: uint32)
    | BindPipeline(pipeline: Handle)
    | BindDescriptorSets(layout: Handle, firstSet: nat, descriptorSet: Handle)
    | Dispatch(groupCountX: uint32, groupCountY: uint32, groupCountZ: uint32)
    | PipelineBarrier(srcAccess: Access, dstAccess: Access)
    | CopyBuffer(src: Handle, dst: Handle, region: BufferCopy)
}
