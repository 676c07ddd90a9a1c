/** The device context (`VkGPU`): the selected physical device's capability
    snapshot, the chosen queue family, the single reusable fence, the queue's
    record of submitted command buffers, and the objects currently alive on
    the device. Each driver entry point the program calls is a small method
    here whose outcome is passed in by the caller. */
module Device {
  import opened Vulkan
  import Memory
  import Queue

  /** The states of the one fence: unsignaled, submitted with a batch that has
      not been waited on, or observed signaled by a successful wait. */
  datatype FenceState = Unsignaled | Submitted | Signaled

  /** The only transition out of each state: submit, wait, reset. */
  function NextFenceState(s: FenceState): FenceState {
    match s
    case Unsignaled => Submitted
    case Submitted => Signaled
    case Signaled => Unsignaled
  }

  /** A fence history that starts unsignaled (the fence is created with no
      flags) and only ever takes the next step of the cycle. */
  ghost predicate FollowsCycle(log: seq<FenceState>) {
    |log| > 0
    && log[0] == Unsignaled
    && forall i :: 0 <= i < |log| - 1 ==> log[i + 1] == NextFenceState(log[i])
  }

  /** Position `i` of the cycle unsignaled, submitted, signaled, unsignaled, ... */
  function CyclePhase(i: nat): FenceState {
    if i % 3 == 0 then Unsignaled else if i % 3 == 1 then Submitted else Signaled
  }

  /** Every history that follows the cycle is the cycle itself. */
  lemma {:induction false} CycleShape(log: seq<FenceState>, i: nat)
    requires FollowsCycle(log) && i < |log|
    ensures log[i] == CyclePhase(i)
  {
    if i > 0 {
      CycleShape(log, i - 1);
    }
  }

  /** Between two submissions the fence is always reset: at most one
      submission is ever outstanding on it. */
  lemma SubmissionsSeparatedByReset(log: seq<FenceState>, i: nat, j: nat)
    requires FollowsCycle(log) && i < j < |log|
    requires log[i] == Submitted && log[j] == Submitted
    ensures i + 2 < j && log[i + 1] == Signaled && log[i + 2] == Unsignaled
  {
    CycleShape(log, i);
    CycleShape(log, j);
    CycleShape(log, i + 1);
    CycleShape(log, i + 2);
  }

  /** The fence states entered by the first `n` of submit, wait and reset. */
  function FencePath(n: nat): (path: seq<FenceState>)
    requires n <= 3
    ensures |path| == n
  {
    [Submitted, Signaled, Unsignaled][..n]
  }

  /** How many of the submit, wait and reset calls at positions `submitAt`,
      `submitAt + 1` and `submitAt + 2` of a call chain succeeded when the
      chain stopped at position `k`. */
  function FenceStepsDone(k: nat, submitAt: nat): (n: nat)
    ensures n <= 3
    ensures k <= submitAt ==> n == 0
    ensures submitAt + 3 <= k ==> n == 3
    ensures submitAt <= k <= submitAt + 3 ==> submitAt + n == k
  {
    if k <= submitAt then 0 else if submitAt + 3 <= k then 3 else k - submitAt
  }

  /** In a chain that reached its submit call at position `p`, FenceStepsDone
      counts the leading successes among submit, wait and reset: the point
      where that three-call stretch alone would stop. */
  lemma StepsDoneCounts(steps: seq<VkResult>, p: nat)
    requires p + 3 <= |steps| && FailAt(steps) >= p
    ensures FenceStepsDone(FailAt(steps), p) == FailAt(steps[p..p + 3])
  {
    var k := FailAt(steps);
    var window := steps[p..p + 3];
    var n := if k >= p + 3 then 3 else k - p;
    assert forall i :: 0 <= i < n ==> window[i] == steps[p + i];
    if n < 3 {
      assert window[n] == steps[k];
    }
    FailAtIs(window, n);
  }

  /** A buffer object: its byte size and VkBufferUsageFlags. */
  datatype BufferDesc = BufferDesc(size: uint64, usage: bv32)

  /** A device-memory allocation: its byte size and memory-type index. */
  datatype Allocation = Allocation(size: uint64, memoryTypeIndex: nat)

  /** vkGetBufferMemoryRequirements: how much memory the buffer needs and
      which memory types may back it. */
  datatype MemoryRequirements = MemoryRequirements(size: uint64, memoryTypeBits: bv32)

  /** The driver's answers to the four calls of allocateFFTBuffer. */
  datatype AllocOutcomes = AllocOutcomes(
    createBuffer: Created,
    requirements: MemoryRequirements,
    allocateMemory: Created,
    bindMemory: VkResult)

  const BUFFER_USAGE_TRANSFER_SRC: bv32 := 0x1
  const BUFFER_USAGE_TRANSFER_DST: bv32 := 0x2
  const BUFFER_USAGE_STORAGE_BUFFER: bv32 := 0x20

  class Gpu {
    /** The memory-type table of the selected physical device. */
    const memoryTypes: seq<Memory.MemoryType>
    /** The queue families of the selected physical device. */
    const queueFamilies: seq<Queue.QueueFamilyProperties>
    /** VkPhysicalDeviceProperties.vendorID. */
    const vendorID: uint32

    var queueFamilyIndex: nat
    var fence: FenceState
    /** Every state the fence has been in, oldest first. */
    var fenceLog: seq<FenceState>
    /** The command sequences submitted to the queue, in submission order. */
    var submissions: seq<seq<Command>>
    /** Command buffers allocated from the pool and not yet freed. */
    var commandBuffers: set<Handle>
    /** Buffer objects that exist. */
    var buffers: map<Handle, BufferDesc>
    /** Device-memory allocations that exist. */
    var memory: map<Handle, Allocation>
    /** The memory each buffer is bound to, at offset 0. */
    var bindings: map<Handle, Handle>

    ghost predicate Valid()
      reads this
    {
      |memoryTypes| <= Memory.MAX_MEMORY_TYPES
      && FollowsCycle(fenceLog)
      && fence == fenceLog[|fenceLog| - 1]
      && bindings.Keys <= buffers.Keys
    }

    /** The context after the physical device is chosen and createFence has
        made the fence (with no flags, hence unsignaled); nothing is allocated
        yet and the queue family index is still 0, as in `VkGPU vkGPU = { 0 }`. */
    constructor (memoryTypes: seq<Memory.MemoryType>, queueFamilies: seq<Queue.QueueFamilyProperties>,
                 vendorID: uint32)
      requires |memoryTypes| <= Memory.MAX_MEMORY_TYPES
      ensures Valid()
      ensures this.memoryTypes == memoryTypes && this.queueFamilies == queueFamilies
      ensures this.vendorID == vendorID && queueFamilyIndex == 0
      ensures fence == Unsignaled && fenceLog == [Unsignaled] && submissions == []
      ensures commandBuffers == {} && buffers == map[] && memory == map[] && bindings == map[]
    {
      this.memoryTypes := memoryTypes;
      this.queueFamilies := queueFamilies;
      this.vendorID := vendorID;
      queueFamilyIndex := 0;
      fence := Unsignaled;
      fenceLog := [Unsignaled];
      submissions := [];
      commandBuffers := {};
      buffers := map[];
      memory := map[];
      bindings := map[];
    }

    /** getComputeQueueFamilyIndex: stores the least family index with a queue
        and the compute bit; when there is none it fails and the stored index
        is left unchanged. */
    method GetComputeQueueFamilyIndex() returns (res: VkResult)
      modifies this`queueFamilyIndex
      ensures res == Success || res == ErrorInitializationFailed
      ensures res == Success <==> exists i :: 0 <= i < |queueFamilies| && Queue.IsComputeFamily(queueFamilies[i])
      ensures res == Success ==>
        queueFamilyIndex < |queueFamilies|
        && Queue.IsComputeFamily(queueFamilies[queueFamilyIndex])
        && forall j :: 0 <= j < queueFamilyIndex ==> !Queue.IsComputeFamily(queueFamilies[j])
      ensures res != Success ==> queueFamilyIndex == old(queueFamilyIndex)
    {
      var i := Queue.ScanQueueFamilies(queueFamilies);
      if i == |queueFamilies| {
        return ErrorInitializationFailed;
      }
      queueFamilyIndex := i;
      return Success;
    }

    /** vkQueueSubmit with the fence: on success the commands join the queue's
        record and the fence is submitted. The fence must be unsignaled. */
    method QueueSubmit(commands: seq<Command>, result: VkResult) returns (res: VkResult)
      requires Valid() && fence == Unsignaled
      modifies this`fence, this`fenceLog, this`submissions
      ensures Valid() && res == result
      ensures result == Success ==>
        submissions == old(submissions) + [commands] && fenceLog == old(fenceLog) + [Submitted]
      ensures result != Success ==>
        submissions == old(submissions) && fenceLog == old(fenceLog) && fence == old(fence)
    {
      res := result;
      if result == Success {
        submissions := submissions + [commands];
        fence := Submitted;
        fenceLog := fenceLog + [Submitted];
      }
    }

    /** vkWaitForFences with the 100-second timeout: a successful wait observes
        the fence signaled; a failed one (VK_TIMEOUT, device loss) leaves it
        submitted. */
    method WaitForFence(result: VkResult) returns (res: VkResult)
      requires Valid() && fence == Submitted
      modifies this`fence, this`fenceLog
      ensures Valid() && res == result
      ensures result == Success ==> fenceLog == old(fenceLog) + [Signaled]
      ensures result != Success ==> fenceLog == old(fenceLog) && fence == old(fence)
    {
      res := result;
      if result == Success {
        fence := Signaled;
        fenceLog := fenceLog + [Signaled];
      }
    }

    /** vkResetFences: a successful reset makes the fence unsignaled again. */
    method ResetFence(result: VkResult) returns (res: VkResult)
      requires Valid() && fence == Signaled
      modifies this`fence, this`fenceLog
      ensures Valid() && res == result
      ensures result == Success ==> fenceLog == old(fenceLog) + [Unsignaled]
      ensures result != Success ==> fenceLog == old(fenceLog) && fence == old(fence)
    {
      res := result;
      if result == Success {
        fence := Unsignaled;
        fenceLog := fenceLog + [Unsignaled];
      }
    }

    /** The submit, wait, reset sequence that every submission of this program
        goes through: the fence takes as many steps of its cycle as calls
        succeed, and the commands are recorded only if the submit does. */
    method SubmitAndWait(commands: seq<Command>, submit: VkResult, wait: VkResult, reset: VkResult)
      returns (res: VkResult)
      requires Valid() && fence == Unsignaled
      modifies this`fence, this`fenceLog, this`submissions
      ensures Valid()
      ensures var k := FailAt([submit, wait, reset]);
        && res == Propagated([submit, wait, reset])
        && submissions == old(submissions) + (if k > 0 then [commands] else [])
        && fenceLog == old(fenceLog) + FencePath(k)
      ensures res == Success ==> fence == Unsignaled
    {
      ghost var steps := [submit, wait, reset];
      res := QueueSubmit(commands, submit);
      if res != Success {
        FailAtIs(steps, 0);
        return;
      }
      res := WaitForFence(wait);
      if res != Success {
        FailAtIs(steps, 1);
        return;
      }
      res := ResetFence(reset);
      if res != Success {
        FailAtIs(steps, 2);
        return;
      }
      FailAtIs(steps, 3);
    }

    /** The end of a recording: vkEndCommandBuffer, then submit, wait and
        reset the fence, then free the command buffer, returning at the first
        failing call with the command buffer still allocated. */
    method FinishSubmission(commandBuffer: Handle, commands: seq<Command>, end: VkResult,
                            submit: VkResult, wait: VkResult, reset: VkResult)
      returns (res: VkResult)
      requires Valid() && fence == Unsignaled
      modifies this`commandBuffers, this`fence, this`fenceLog, this`submissions
      ensures Valid()
      ensures var steps := [end, submit, wait, reset];
        var k := FailAt(steps);
        && res == Propagated(steps)
        && commandBuffers == (if k == |steps| then old(commandBuffers) - {commandBuffer} else old(commandBuffers))
        && submissions == old(submissions) + (if k > 1 then [commands] else [])
        && fenceLog == old(fenceLog) + FencePath(FenceStepsDone(k, 1))
      ensures res == Success ==> fence == Unsignaled
    {
      ghost var steps := [end, submit, wait, reset];
      res := end;
      if res != Success {
        FailAtIs(steps, 0);
        return;
      }
      SucceededFirst(steps);
      assert steps[1..] == [submit, wait, reset];
      res := SubmitAndWait(commands, submit, wait, reset);
      if res != Success {
        return;
      }
      FreeCommandBuffer(commandBuffer);
    }

    /** A one-time submission: allocate a command buffer, begin it, record
        `commands`, end it, submit, wait, reset the fence and free the command
        buffer, returning at the first failing call with the command buffer
        still allocated. A result the caller does not check is passed as
        VK_SUCCESS. */
    method OneTimeSubmit(commands: seq<Command>, o: SubmitOutcomes) returns (res: VkResult)
      requires Valid() && fence == Unsignaled && o.commandBuffer.handle !in commandBuffers
      modifies this`commandBuffers, this`fence, this`fenceLog, this`submissions
      ensures Valid()
      ensures var steps := SubmitSteps(o);
        var k := FailAt(steps);
        && res == Propagated(steps)
        && commandBuffers == (if 1 <= k < |steps| then old(commandBuffers) + {o.commandBuffer.handle} else old(commandBuffers))
        && submissions == old(submissions) + (if k > 3 then [commands] else [])
        && fenceLog == old(fenceLog) + FencePath(FenceStepsDone(k, 3))
      ensures res == Success ==> fence == Unsignaled
    {
      ghost var head := [o.commandBuffer.result, o.begin];
      ghost var tail := [o.end, o.submit, o.wait, o.reset];
      FailAtConcat(head, tail);
      assert SubmitSteps(o) == head + tail;
      res := BeginRecording(o.commandBuffer, o.begin);
      if res != Success {
        return;
      }
      res := FinishSubmission(o.commandBuffer.handle, commands, o.end, o.submit, o.wait, o.reset);
    }

    /** The start of a recording: vkAllocateCommandBuffers for one primary
        command buffer, then vkBeginCommandBuffer. */
    method BeginRecording(cb: Created, begin: VkResult) returns (res: VkResult)
      requires cb.handle !in commandBuffers
      modifies this`commandBuffers
      ensures res == Propagated([cb.result, begin])
      ensures FailAt([cb.result, begin]) == if cb.result != Success then 0 else if begin != Success then 1 else 2
      ensures commandBuffers == if cb.result == Success then old(commandBuffers) + {cb.handle} else old(commandBuffers)
    {
      ghost var steps := [cb.result, begin];
      res := AllocateCommandBuffer(cb);
      if res != Success {
        FailAtIs(steps, 0);
        return;
      }
      res := begin;
      if res != Success {
        FailAtIs(steps, 1);
        return;
      }
      FailAtIs(steps, 2);
    }

    /** vkAllocateCommandBuffers for one primary command buffer. */
    method AllocateCommandBuffer(cb: Created) returns (res: VkResult)
      requires cb.handle !in commandBuffers
      modifies this`commandBuffers
      ensures res == cb.result
      ensures commandBuffers == if res == Success then old(commandBuffers) + {cb.handle} else old(commandBuffers)
    {
      res := cb.result;
      if res == Success {
        commandBuffers := commandBuffers + {cb.handle};
      }
    }

    /** vkFreeCommandBuffers for one command buffer. */
    method FreeCommandBuffer(commandBuffer: Handle)
      modifies this`commandBuffers
      ensures commandBuffers == old(commandBuffers) - {commandBuffer}
    {
      commandBuffers := commandBuffers - {commandBuffer};
    }

    /** vkDestroyBuffer: the buffer and its binding are gone. */
    method DestroyBuffer(buffer: Handle)
      requires Valid()
      modifies this`buffers, this`bindings
      ensures Valid()
      ensures buffers == old(buffers) - {buffer} && bindings == old(bindings) - {buffer}
    {
      buffers := buffers - {buffer};
      bindings := bindings - {buffer};
    }

    /** vkFreeMemory. */
    method FreeMemory(deviceMemory: Handle)
      modifies this`memory
      ensures memory == old(memory) - {deviceMemory}
    {
      memory := memory - {deviceMemory};
    }

    /** allocateFFTBuffer: creates a buffer of `size` bytes for `usage`, asks
        for its memory requirements, picks the first memory type they allow
        that has all of `propertyFlags`, allocates that much memory of that
        type and binds it at offset 0. The first failing step's code is
        returned and nothing created before it is released. */
    method AllocateBuffer(usage: bv32, propertyFlags: bv32, size: uint64, o: AllocOutcomes)
      returns (res: VkResult)
      requires Valid()
      requires o.createBuffer.handle !in buffers && o.allocateMemory.handle !in memory
      modifies this`buffers, this`memory, this`bindings
      ensures Valid()
      ensures var steps := AllocSteps(memoryTypes, propertyFlags, o);
        var k := FailAt(steps);
        && res == Propagated(steps)
        && buffers == (if k >= 1 then old(buffers)[o.createBuffer.handle := BufferDesc(size, usage)] else old(buffers))
        && memory == (if k >= 3 then old(memory)[o.allocateMemory.handle :=
                        Allocation(o.requirements.size, ChosenMemoryType(memoryTypes, propertyFlags, o))]
                      else old(memory))
        && bindings == (if k >= 4 then old(bindings)[o.createBuffer.handle := o.allocateMemory.handle] else old(bindings))
    {
      ghost var steps := AllocSteps(memoryTypes, propertyFlags, o);
      res := o.createBuffer.result;
      if res != Success {
        return;
      }
      var buffer := o.createBuffer.handle;
      buffers := buffers[buffer := BufferDesc(size, usage)];
      var typeIndex;
      res, typeIndex := Memory.FindMemoryType(memoryTypes, o.requirements.memoryTypeBits, propertyFlags, 0);
      if res != Success {
        FailAtIs(steps, 1);
        return;
      }
      res := o.allocateMemory.result;
      if res != Success {
        FailAtIs(steps, 2);
        return;
      }
      var deviceMemory := o.allocateMemory.handle;
      memory := memory[deviceMemory := Allocation(o.requirements.size, typeIndex)];
      res := o.bindMemory;
      if res != Success {
        FailAtIs(steps, 3);
        return;
      }
      bindings := bindings[buffer := deviceMemory];
      FailAtIs(steps, 4);
    }
  }

  /** The driver's answers to the calls of a one-time submission. */
  datatype SubmitOutcomes = SubmitOutcomes(
    commandBuffer: Created,
    begin: VkResult,
    end: VkResult,
    submit: VkResult,
    wait: VkResult,
    reset: VkResult)

  /** The results a one-time submission checks, in call order. */
  function SubmitSteps(o: SubmitOutcomes): seq<VkResult> {
    [o.commandBuffer.result, o.begin, o.end, o.submit, o.wait, o.reset]
  }

  /** The memory type allocateFFTBuffer picks: the first one the buffer's
      requirements allow that has all of `propertyFlags` (`|memoryTypes|` when
      there is none). */
  function ChosenMemoryType(memoryTypes: seq<Memory.MemoryType>, propertyFlags: bv32, o: AllocOutcomes): nat
    requires |memoryTypes| <= Memory.MAX_MEMORY_TYPES
  {
    Memory.FirstSuitable(memoryTypes, o.requirements.memoryTypeBits, propertyFlags, 0)
  }

  /** The result codes of allocateFFTBuffer's steps, in order; the memory-type
      search fails exactly when no table entry is suitable. */
  function AllocSteps(memoryTypes: seq<Memory.MemoryType>, propertyFlags: bv32, o: AllocOutcomes): seq<VkResult>
    requires |memoryTypes| <= Memory.MAX_MEMORY_TYPES
  {
    [ o.createBuffer.result,
      if ChosenMemoryType(memoryTypes, propertyFlags, o) == |memoryTypes|
      then ErrorInitializationFailed else Success,
      o.allocateMemory.result,
      o.bindMemory ]
  }
}
