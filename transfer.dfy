/** Host/device transfers through a host-visible, host-coherent staging
    buffer: transferDataFromCPU and transferDataToCPU. The bytes moved by
    memcpy are not modelled; what is modelled is which objects exist after
    each outcome, the one copy command submitted, and the fence. */
module Transfer {
  import opened Vulkan
  import opened Device
  import Memory

  /** The memory properties both transfers ask for the staging buffer. */
  const STAGING_PROPERTIES: bv32 := Memory.MEMORY_PROPERTY_HOST_VISIBLE | Memory.MEMORY_PROPERTY_HOST_COHERENT

  /** The driver's answers to one transfer's calls: those of the staging
      allocation, of vkMapMemory, and of the one-time submission. */
  datatype TransferOutcomes = TransferOutcomes(
    staging: AllocOutcomes,
    mapMemory: VkResult,
    submission: SubmitOutcomes)

  /** The objects a transfer creates must be new. */
  ghost predicate FreshObjects(gpu: Gpu, o: TransferOutcomes)
    reads gpu
  {
    && o.staging.createBuffer.handle !in gpu.buffers
    && o.staging.allocateMemory.handle !in gpu.memory
    && o.submission.commandBuffer.handle !in gpu.commandBuffers
  }

  /** The staging memory a transfer allocates: the size its buffer requires,
      of the first memory type allowed that is host-visible and host-coherent. */
  function StagingAllocation(memoryTypes: seq<Memory.MemoryType>, o: TransferOutcomes): Allocation
    requires |memoryTypes| <= Memory.MAX_MEMORY_TYPES
  {
    Allocation(o.staging.requirements.size, ChosenMemoryType(memoryTypes, STAGING_PROPERTIES, o.staging))
  }

  /** Adding a new key and removing it again gives back the map. */
  lemma AddThenRemove<K, V>(m: map<K, V>, key: K, value: V)
    requires key !in m
    ensures m[key := value] - {key} == m
  {
  }

  /** The single copy both transfers record: the whole buffer, offsets 0. */
  function WholeCopy(src: Handle, dst: Handle, bufferSize: uint64): (c: Command)
    ensures c.CopyBuffer? && c.src == src && c.dst == dst
    ensures c.region.srcOffset == 0 && c.region.dstOffset == 0 && c.region.size == bufferSize
  {
    CopyBuffer(src, dst, BufferCopy(0, 0, bufferSize))
  }

  /** transferDataFromCPU's checked calls in order: the four of the staging
      allocation (positions 0 to 3), map (4), then allocate command buffer,
      begin, end, submit, wait and reset (5 to 10). */
  function FromSteps(memoryTypes: seq<Memory.MemoryType>, o: TransferOutcomes): seq<VkResult>
    requires |memoryTypes| <= Memory.MAX_MEMORY_TYPES
  {
    AllocSteps(memoryTypes, STAGING_PROPERTIES, o.staging) + [o.mapMemory] + SubmitSteps(o.submission)
  }

  /** transferDataFromCPU: stages `bufferSize` bytes in a new TRANSFER_SRC
      buffer, records and submits one copy from it into `buffer`, waits, and
      on success releases the command buffer and the staging buffer and
      memory. A failing call's code is returned at once and nothing made
      before it is released. */
  method TransferDataFromCPU(gpu: Gpu, buffer: Handle, bufferSize: uint64, o: TransferOutcomes)
    returns (res: VkResult)
    requires gpu.Valid() && gpu.fence == Unsignaled && FreshObjects(gpu, o)
    modifies gpu`buffers, gpu`memory, gpu`bindings, gpu`commandBuffers, gpu`fence, gpu`fenceLog, gpu`submissions
    ensures gpu.Valid()
    ensures var steps := FromSteps(gpu.memoryTypes, o);
      var k := FailAt(steps);
      var staging := o.staging.createBuffer.handle;
      var stagingMemory := o.staging.allocateMemory.handle;
      && res == Propagated(steps)
      // the staging objects outlive the call exactly when it fails after making them
      && gpu.buffers == (if 1 <= k < |steps| then old(gpu.buffers)[staging := BufferDesc(bufferSize, Device.BUFFER_USAGE_TRANSFER_SRC)] else old(gpu.buffers))
      && gpu.memory == (if 3 <= k < |steps| then old(gpu.memory)[stagingMemory := StagingAllocation(gpu.memoryTypes, o)]
                        else old(gpu.memory))
      && gpu.bindings == (if 4 <= k < |steps| then old(gpu.bindings)[staging := stagingMemory] else old(gpu.bindings))
      && gpu.commandBuffers == (if 6 <= k < |steps| then old(gpu.commandBuffers) + {o.submission.commandBuffer.handle} else old(gpu.commandBuffers))
      && gpu.submissions == old(gpu.submissions) + (if k > 8 then [[WholeCopy(staging, buffer, bufferSize)]] else [])
      && gpu.fenceLog == old(gpu.fenceLog) + FencePath(FenceStepsDone(k, 8))
    ensures res == Success ==> gpu.fence == Unsignaled
  {
    ghost var allocSteps := AllocSteps(gpu.memoryTypes, STAGING_PROPERTIES, o.staging);
    ghost var uploadSteps := [o.mapMemory] + SubmitSteps(o.submission);
    FailAtConcat(allocSteps, uploadSteps);
    assert FromSteps(gpu.memoryTypes, o) == allocSteps + uploadSteps;
    res := gpu.AllocateBuffer(Device.BUFFER_USAGE_TRANSFER_SRC, STAGING_PROPERTIES, bufferSize, o.staging);
    if res != Success {
      return;
    }
    assert FailAt(allocSteps) == |allocSteps|;
    AddThenRemove(old(gpu.buffers), o.staging.createBuffer.handle, BufferDesc(bufferSize, Device.BUFFER_USAGE_TRANSFER_SRC));
    AddThenRemove(old(gpu.memory), o.staging.allocateMemory.handle, StagingAllocation(gpu.memoryTypes, o));
    AddThenRemove(old(gpu.bindings), o.staging.createBuffer.handle, o.staging.allocateMemory.handle);
    res := Upload(gpu, buffer, bufferSize, o.staging.createBuffer.handle, o.staging.allocateMemory.handle,
                  o.mapMemory, o.submission);
  }

  /** The part of transferDataFromCPU after the staging allocation: map and
      fill the staging memory, submit the copy into `buffer`, and on success
      release the command buffer and the staging buffer and memory. */
  method Upload(gpu: Gpu, buffer: Handle, bufferSize: uint64, stagingBuffer: Handle, stagingBufferMemory: Handle,
                mapMemory: VkResult, submission: SubmitOutcomes) returns (res: VkResult)
    requires gpu.Valid() && gpu.fence == Unsignaled && submission.commandBuffer.handle !in gpu.commandBuffers
    modifies gpu`buffers, gpu`memory, gpu`bindings, gpu`commandBuffers, gpu`fence, gpu`fenceLog, gpu`submissions
    ensures gpu.Valid()
    ensures var steps := [mapMemory] + SubmitSteps(submission);
      var k := FailAt(steps);
      && res == Propagated(steps)
      && gpu.buffers == (if k == |steps| then old(gpu.buffers) - {stagingBuffer} else old(gpu.buffers))
      && gpu.memory == (if k == |steps| then old(gpu.memory) - {stagingBufferMemory} else old(gpu.memory))
      && gpu.bindings == (if k == |steps| then old(gpu.bindings) - {stagingBuffer} else old(gpu.bindings))
      && gpu.commandBuffers == (if 2 <= k < |steps| then old(gpu.commandBuffers) + {submission.commandBuffer.handle} else old(gpu.commandBuffers))
      && gpu.submissions == old(gpu.submissions) + (if k > 4 then [[WholeCopy(stagingBuffer, buffer, bufferSize)]] else [])
      && gpu.fenceLog == old(gpu.fenceLog) + FencePath(FenceStepsDone(k, 4))
    ensures res == Success ==> gpu.fence == Unsignaled
  {
    FailAtConcat([mapMemory], SubmitSteps(submission));
    res := mapMemory;
    if res != Success {
      return;
    }
    // memcpy into the mapped staging memory, then vkUnmapMemory
    res := gpu.OneTimeSubmit([WholeCopy(stagingBuffer, buffer, bufferSize)], submission);
    if res != Success {
      return;
    }
    gpu.DestroyBuffer(stagingBuffer);
    gpu.FreeMemory(stagingBufferMemory);
  }

  /** A submission whose vkEndCommandBuffer result is discarded. */
  function UncheckedEnd(o: SubmitOutcomes): (u: SubmitOutcomes)
    ensures u.end == Success
    ensures u.commandBuffer == o.commandBuffer && u.begin == o.begin
    ensures u.submit == o.submit && u.wait == o.wait && u.reset == o.reset
  {
    o.(end := Success)
  }

  /** transferDataToCPU's checked calls in order: the four of the staging
      allocation (positions 0 to 3), then allocate command buffer, begin, end,
      submit, wait and reset (4 to 9), then map (10). The result of
      vkEndCommandBuffer is not checked, so it stands as VK_SUCCESS. */
  function ToSteps(memoryTypes: seq<Memory.MemoryType>, o: TransferOutcomes): seq<VkResult>
    requires |memoryTypes| <= Memory.MAX_MEMORY_TYPES
  {
    AllocSteps(memoryTypes, STAGING_PROPERTIES, o.staging) + SubmitSteps(UncheckedEnd(o.submission)) + [o.mapMemory]
  }

  /** A failing vkEndCommandBuffer does not stop transferDataToCPU: its result
      has no effect on the chain. */
  lemma EndIgnored(memoryTypes: seq<Memory.MemoryType>, o: TransferOutcomes, end: VkResult)
    requires |memoryTypes| <= Memory.MAX_MEMORY_TYPES
    ensures ToSteps(memoryTypes, o) == ToSteps(memoryTypes, o.(submission := o.submission.(end := end)))
  {
  }

  /** transferDataFromCPU, by contrast, stops at a failing vkEndCommandBuffer
      (position 7) and returns its code. */
  lemma EndChecked(memoryTypes: seq<Memory.MemoryType>, o: TransferOutcomes)
    requires |memoryTypes| <= Memory.MAX_MEMORY_TYPES
    requires forall i :: 0 <= i < 7 ==> FromSteps(memoryTypes, o)[i] == Success
    requires o.submission.end != Success
    ensures FailAt(FromSteps(memoryTypes, o)) == 7
    ensures Propagated(FromSteps(memoryTypes, o)) == o.submission.end
  {
    var steps := FromSteps(memoryTypes, o);
    assert steps[7] == o.submission.end;
    FailAtIs(steps, 7);
  }

  /** transferDataToCPU: makes a new TRANSFER_DST staging buffer, records and
      submits one copy from `buffer` into it, waits, frees the command buffer,
      maps the staging memory to read it back, and releases the staging
      buffer and memory. A failing call's code is returned at once and nothing
      made before it is released; the command buffer is already freed when
      the map fails. */
  method TransferDataToCPU(gpu: Gpu, buffer: Handle, bufferSize: uint64, o: TransferOutcomes)
    returns (res: VkResult)
    requires gpu.Valid() && gpu.fence == Unsignaled && FreshObjects(gpu, o)
    modifies gpu`buffers, gpu`memory, gpu`bindings, gpu`commandBuffers, gpu`fence, gpu`fenceLog, gpu`submissions
    ensures gpu.Valid()
    ensures var steps := ToSteps(gpu.memoryTypes, o);
      var k := FailAt(steps);
      var staging := o.staging.createBuffer.handle;
      var stagingMemory := o.staging.allocateMemory.handle;
      && res == Propagated(steps)
      && gpu.buffers == (if 1 <= k < |steps| then old(gpu.buffers)[staging := BufferDesc(bufferSize, Device.BUFFER_USAGE_TRANSFER_DST)] else old(gpu.buffers))
      && gpu.memory == (if 3 <= k < |steps| then old(gpu.memory)[stagingMemory := StagingAllocation(gpu.memoryTypes, o)]
                        else old(gpu.memory))
      && gpu.bindings == (if 4 <= k < |steps| then old(gpu.bindings)[staging := stagingMemory] else old(gpu.bindings))
      && gpu.commandBuffers == (if 5 <= k < 10 then old(gpu.commandBuffers) + {o.submission.commandBuffer.handle} else old(gpu.commandBuffers))
      && gpu.submissions == old(gpu.submissions) + (if k > 7 then [[WholeCopy(buffer, staging, bufferSize)]] else [])
      && gpu.fenceLog == old(gpu.fenceLog) + FencePath(FenceStepsDone(k, 7))
    ensures res == Success ==> gpu.fence == Unsignaled
  {
    ghost var allocSteps := AllocSteps(gpu.memoryTypes, STAGING_PROPERTIES, o.staging);
    ghost var downloadSteps := SubmitSteps(UncheckedEnd(o.submission)) + [o.mapMemory];
    FailAtConcat(allocSteps, downloadSteps);
    assert ToSteps(gpu.memoryTypes, o) == allocSteps + downloadSteps;
    res := gpu.AllocateBuffer(Device.BUFFER_USAGE_TRANSFER_DST, STAGING_PROPERTIES, bufferSize, o.staging);
    if res != Success {
      return;
    }
    assert FailAt(allocSteps) == |allocSteps|;
    AddThenRemove(old(gpu.buffers), o.staging.createBuffer.handle, BufferDesc(bufferSize, Device.BUFFER_USAGE_TRANSFER_DST));
    AddThenRemove(old(gpu.memory), o.staging.allocateMemory.handle, StagingAllocation(gpu.memoryTypes, o));
    AddThenRemove(old(gpu.bindings), o.staging.createBuffer.handle, o.staging.allocateMemory.handle);
    // vkEndCommandBuffer's result is discarded
    res := Download(gpu, buffer, bufferSize, o.staging.createBuffer.handle, o.staging.allocateMemory.handle,
                    UncheckedEnd(o.submission), o.mapMemory);
  }

  /** The part of transferDataToCPU after the staging allocation: submit the
      copy out of `buffer`, free the command buffer, map and read the staging
      memory, and release the staging buffer and memory. The C function ends
      without a return statement; the model returns the code of its last
      call, VK_SUCCESS. */
  method Download(gpu: Gpu, buffer: Handle, bufferSize: uint64, stagingBuffer: Handle, stagingBufferMemory: Handle,
                  submission: SubmitOutcomes, mapMemory: VkResult) returns (res: VkResult)
    requires gpu.Valid() && gpu.fence == Unsignaled && submission.commandBuffer.handle !in gpu.commandBuffers
    modifies gpu`buffers, gpu`memory, gpu`bindings, gpu`commandBuffers, gpu`fence, gpu`fenceLog, gpu`submissions
    ensures gpu.Valid()
    ensures var steps := SubmitSteps(submission) + [mapMemory];
      var k := FailAt(steps);
      && res == Propagated(steps)
      && gpu.buffers == (if k == |steps| then old(gpu.buffers) - {stagingBuffer} else old(gpu.buffers))
      && gpu.memory == (if k == |steps| then old(gpu.memory) - {stagingBufferMemory} else old(gpu.memory))
      && gpu.bindings == (if k == |steps| then old(gpu.bindings) - {stagingBuffer} else old(gpu.bindings))
      && gpu.commandBuffers == (if 1 <= k < 6 then old(gpu.commandBuffers) + {submission.commandBuffer.handle} else old(gpu.commandBuffers))
      && gpu.submissions == old(gpu.submissions) + (if k > 3 then [[WholeCopy(buffer, stagingBuffer, bufferSize)]] else [])
      && gpu.fenceLog == old(gpu.fenceLog) + FencePath(FenceStepsDone(k, 3))
    ensures res == Success ==> gpu.fence == Unsignaled
  {
    FailAtConcat(SubmitSteps(submission), [mapMemory]);
    res := gpu.OneTimeSubmit([WholeCopy(buffer, stagingBuffer, bufferSize)], submission);
    if res != Success {
      return;
    }
    res := mapMemory;
    if res != Success {
      return;
    }
    // memcpy out of the mapped staging memory, then vkUnmapMemory
    gpu.DestroyBuffer(stagingBuffer);
    gpu.FreeMemory(stagingBufferMemory);
  }
}
