# VulkanTransposition in Dafny

A model of the host side of the Vulkan compute transposition benchmark
(`VulkanTransposition.c`). It covers the rules that decide what the program
sends to the GPU:

- the first-match searches that pick a memory type and a compute queue family;
- the specialization constants, map entries, descriptor bindings and writes
  that `createApp` derives from the problem size and the coalescing granularity;
- the dispatch grid and the five-command sequence `appendApp` records;
- `runApp`'s batch recording and its submit/wait/reset protocol on the single
  fence;
- the staging-buffer transfers, each of which records one whole-buffer copy;
- the shader-variant switch and the 4-byte padding of the SPIR-V bytes;
- the vendor default for the granularity, the buffer byte sizes and the input
  fill loop of `VulkanTest`;
- `findFlag`, the command-line scan.

Every Vulkan entry point is replaced by an outcome the caller passes in: a
`VkResult` and, for a create call, the new handle. A method therefore states,
for every combination of outcomes, which result it returns and what the
device looks like afterwards. The device context `VkGPU` is the class
`Device.Gpu`. Its fields record:

- the fence state, and every state the fence has been in (`fenceLog`);
- the command sequences submitted to the queue;
- the live command buffers, buffers, memory allocations and bindings.

`Gpu.Valid()` says the fence history follows the cycle unsignaled → submitted
→ signaled → unsignaled. Each chain of calls that returns at the first failure
(`if (res != VK_SUCCESS) return res;`) is described by `Vulkan.FailAt`, the
position of the first failing call, and `Vulkan.Propagated`, the code the
chain returns.

Modules follow the structure of the program:

| module | file | contents |
|---|---|---|
| `Vulkan` | vulkan.dfy | fixed-width integers, `VkResult`, handles, commands, error chains |
| `Memory` | memory.dfy | `findMemoryType` |
| `Queue` | queue.dfy | the queue-family scan |
| `Device` | device.dfy | `VkGPU` as class `Gpu`: fence, queue, objects, `allocateFFTBuffer`, one-time submissions |
| `Shader` | shader.dfy | `createShaderModule`, `VkFFTReadShader` |
| `Kernel` | kernel.dfy | `VkApplication`, `createApp`, the dispatch grid |
| `Dispatch` | dispatch.dfy | `appendApp`, `runApp` |
| `Transfer` | transfer.dfy | `transferDataFromCPU`, `transferDataToCPU` |
| `Benchmark` | benchmark.dfy | the configuration arithmetic and the fill loop of `VulkanTest` |
| `Cli` | cli.dfy | `findFlag` |

The model follows the code, which behaves as follows:

- Device buffers are allocated with property mask `VK_MEMORY_HEAP_DEVICE_LOCAL_BIT`,
  a heap flag whose value (1) is that of `VK_MEMORY_PROPERTY_DEVICE_LOCAL_BIT`.
- A missing compute queue and an unknown shader identifier both give
  `VK_ERROR_INITIALIZATION_FAILED`.
- A failed call is never rolled back. The command buffer and staging objects
  made before it stay allocated.
- The push-constant value is always 0.
- The device index is not range-checked.

## Model

| member | source | states |
|---|---|---|
| Vulkan.Wrap32 | VulkanTransposition.c:385 | a value stored in a `uint32_t` is reduced modulo 2^32 and unchanged when it fits |
| Vulkan.Wrap64 | VulkanTransposition.c:708 | a value stored in a `VkDeviceSize` is reduced modulo 2^64 and unchanged when it fits |
| Vulkan.FailAt | VulkanTransposition.c:505-517 | a chain of checked calls stops at the first call that did not succeed: every earlier call returned VK_SUCCESS and the one at the stop did not |
| Vulkan.FailAtIs | VulkanTransposition.c:505-517 | the stop position is determined by which calls succeeded |
| Vulkan.FailAtConcat | VulkanTransposition.c:525-529 | a chain that calls a sub-chain first stops inside it when the sub-chain fails, otherwise where the rest stops; the returned code follows the same split |
| Vulkan.Propagated | VulkanTransposition.c:505-517 | the chain returns VK_SUCCESS exactly when every call succeeded, and otherwise the code of the first failing call |
| Vulkan.SucceededFirst | VulkanTransposition.c:548-549 | after a successful first call the chain behaves as the rest of it |
| Memory.FirstSuitable | VulkanTransposition.c:486-493 | the least table index from `from` on whose bit is set in the mask and whose flags include the requested ones, or the table length when there is none |
| Memory.FirstSuitableFromStart | VulkanTransposition.c:486-493 | the search from index 0 finds nothing exactly when no entry is suitable, and otherwise finds the least suitable entry |
| Memory.FindMemoryType | VulkanTransposition.c:480-494 | success exactly when some entry is suitable; it then returns the least suitable index; otherwise VK_ERROR_INITIALIZATION_FAILED with the index untouched |
| Memory.ZeroMaskNeverSuitable | VulkanTransposition.c:487 | an all-zero type mask allows no entry |
| Memory.NoPropertiesAcceptsFirstAllowed | VulkanTransposition.c:487 | with no requested flags the first index the mask allows is chosen |
| Memory.FirstSuitableUnique | VulkanTransposition.c:486-491 | there is only one least suitable index |
| Queue.ScanQueueFamilies | VulkanTransposition.c:214-221 | the loop stops at the first family with a queue and the compute bit, or at the family count when there is none |
| Device.CycleShape | VulkanTransposition.c:461-467 | every fence history that follows the cycle is unsignaled, submitted, signaled, repeated |
| Device.SubmissionsSeparatedByReset | VulkanTransposition.c:461-467 | between two submissions the fence is signaled and then reset |
| Device.FencePath | VulkanTransposition.c:461-467 | the fence states entered by the first n of submit, wait and reset |
| Device.StepsDoneCounts | VulkanTransposition.c:553-558 | in a chain that reached its submit, the number of fence steps taken is the number of leading successes among submit, wait and reset |
| Device.Gpu.constructor | VulkanTransposition.c:253-260 | the context starts with an unsignaled fence, queue family index 0 and nothing allocated or submitted |
| Device.Gpu.GetComputeQueueFamilyIndex | VulkanTransposition.c:207-228 | success exactly when some family has a queue and the compute bit; it then stores the least such index; otherwise VK_ERROR_INITIALIZATION_FAILED with the index unchanged |
| Device.Gpu.QueueSubmit | VulkanTransposition.c:461-462 | a successful submit records the commands and moves the fence to submitted; a failed one changes nothing |
| Device.Gpu.WaitForFence | VulkanTransposition.c:463-464 | a successful wait sees the fence signaled; a failed one leaves it submitted |
| Device.Gpu.ResetFence | VulkanTransposition.c:467-468 | a successful reset makes the fence unsignaled again |
| Device.Gpu.SubmitAndWait | VulkanTransposition.c:553-558 | the fence takes one cycle step per successful call, the commands are recorded only when the submit succeeds, and full success ends unsignaled |
| Device.Gpu.FinishSubmission | VulkanTransposition.c:548-559 | end, submit, wait, reset, free: the command buffer is freed only when every call succeeded, and the submissions and fence follow the calls that did |
| Device.Gpu.BeginRecording | VulkanTransposition.c:537-542 | the command buffer exists afterwards exactly when its allocation succeeded |
| Device.Gpu.OneTimeSubmit | VulkanTransposition.c:532-559 | the command buffer is left allocated exactly when a call after its allocation fails; the commands are submitted once the submit succeeds; the fence follows the submit, wait and reset that succeeded |
| Device.Gpu.AllocateCommandBuffer | VulkanTransposition.c:537-538 | a successful allocation adds the command buffer |
| Device.Gpu.FreeCommandBuffer | VulkanTransposition.c:559 | the command buffer is gone |
| Device.Gpu.DestroyBuffer | VulkanTransposition.c:560 | the buffer and its binding are gone |
| Device.Gpu.FreeMemory | VulkanTransposition.c:561 | the allocation is gone |
| Device.Gpu.AllocateBuffer | VulkanTransposition.c:495-518 | create, pick the memory type, allocate, bind, stopping at the first failure: the buffer exists once created, the memory of the first suitable type exists once allocated, the binding once bound, and nothing is released on failure |
| Shader.ShaderFileName | VulkanTransposition.c:275-287 | identifiers 0, 1 and 2 select a file and every other identifier none |
| Shader.ShaderFilesDistinct | VulkanTransposition.c:276-284 | the three variants read three different files |
| Shader.PaddedLength | VulkanTransposition.c:75 | the padded length is a multiple of 4 in [filesize, filesize + 4) |
| Shader.PaddedLengthIsLeast | VulkanTransposition.c:75 | no smaller multiple of 4 holds the file |
| Shader.ZeroFillTail | VulkanTransposition.c:81-83 | bytes from the file size on become 0 and the bytes before are kept |
| Shader.ReadShader | VulkanTransposition.c:63-87 | the buffer has the padded length, starts with the file and ends in zeros; the reported length is the padded length as a `uint32_t` |
| Shader.CreateShaderModule | VulkanTransposition.c:270-297 | an unknown identifier fails with VK_ERROR_INITIALIZATION_FAILED before any file is read; otherwise the module is created from the padded bytes of the selected file and the driver's result is returned |
| Kernel.DeriveSpecializationConstants | VulkanTransposition.c:379-385 | the plane stride is size[0]·size[1] whenever that product fits in 32 bits |
| Kernel.WorkgroupRowSpansCoalescedBytes | VulkanTransposition.c:379-381 | the workgroup is square and one deep; a row of 4-byte lanes covers the granularity exactly when it is a multiple of 4, and otherwise falls short by less than one lane |
| Kernel.StridesAreRowMajor | VulkanTransposition.c:383-385 | the strides address element (i, j, k) at its row-major linear index |
| Kernel.SpecializationData | VulkanTransposition.c:393-397 | the data block holds six 32-bit constants |
| Kernel.MapEntriesTile | VulkanTransposition.c:387-396 | the six entries tile the 24-byte block in order without overlap, and entry i reads constant i+1 from word i |
| Kernel.SpecializationMapEntries | VulkanTransposition.c:387-392 | entry i has constant ID i+1, offset 4i and size 4 |
| Kernel.DescriptorSetLayoutBindings | VulkanTransposition.c:312-319 | binding i is one storage-buffer descriptor for the compute stage |
| Kernel.DescriptorWrites | VulkanTransposition.c:335-358 | binding 0 gets the whole input buffer and binding 1 the whole output buffer, both from offset 0 |
| Kernel.CreateApp | VulkanTransposition.c:298-412 | the returned code is the first failing step's; the app holds exactly the objects made before it, and the constants once the pipeline layout exists; on success the pool, bindings, writes, push-constant range, tiling specialization info and padded shader code are as the source builds them |
| Kernel.Grid | VulkanTransposition.c:429 | in each dimension, the largest number of workgroups that fit in the problem |
| Kernel.GridCoverage | VulkanTransposition.c:429 | the grid covers a dimension exactly when the size is a multiple of the workgroup size; otherwise `size % localSize` elements are left over |
| Kernel.TruncatedShortfall | VulkanTransposition.c:429 | truncating division leaves the remainder uncovered |
| Dispatch.DispatchSequence | VulkanTransposition.c:413-433 | appendApp records five commands |
| Dispatch.BatchLength | VulkanTransposition.c:449-451 | a batch of n has 5n commands |
| Dispatch.BatchAt | VulkanTransposition.c:449-451 | command j of repetition r of a batch is command j of the sequence |
| Dispatch.BatchDispatches | VulkanTransposition.c:429-431 | every repetition dispatches the same grid and is followed by the write-to-read barrier |
| Dispatch.AppendApp | VulkanTransposition.c:413-433 | the app's pushID becomes 0 and the sequence is appended to the command buffer |
| Dispatch.RecordBatch | VulkanTransposition.c:449-451 | the recorded commands are the batch of `batch` sequences |
| Dispatch.RunApp | VulkanTransposition.c:434-472 | returns the first failing call's code; the batch is submitted once the submit succeeds; the fence follows the submit, wait and reset that succeeded and ends unsignaled on success; the command buffer is freed only on success |
| Transfer.AddThenRemove | VulkanTransposition.c:560-561 | releasing an object made by the call restores the previous state |
| Transfer.TransferDataFromCPU | VulkanTransposition.c:519-563 | one copy from the staging buffer into the destination is submitted once the submit succeeds; the staging buffer, its memory and binding, and the command buffer outlive the call exactly when it fails after making them; the fence follows the calls that succeeded |
| Transfer.Upload | VulkanTransposition.c:527-562 | after the staging allocation: map, one-time copy, release; the staging objects are released only on success |
| Transfer.EndIgnored | VulkanTransposition.c:588 | transferDataToCPU's chain is the same whatever vkEndCommandBuffer returns: a failing end does not stop it |
| Transfer.EndChecked | VulkanTransposition.c:548-549 | transferDataFromCPU stops at a failing vkEndCommandBuffer and returns its code |
| Transfer.TransferDataToCPU | VulkanTransposition.c:564-606 | one copy from the source into the staging buffer is submitted once the submit succeeds; the command buffer is freed before the map; the staging objects outlive the call exactly when a call after their creation fails |
| Transfer.Download | VulkanTransposition.c:572-605 | after the staging allocation: one-time copy, map, release; the staging objects are released only when the map succeeds |
| Benchmark.DefaultCoalescedMemory | VulkanTransposition.c:689-703 | vendor 0x10DE gets 32 bytes and every other vendor 64 |
| Benchmark.CoalescedMemory | VulkanTransposition.c:689-706 | a nonzero request is used unchanged; 0 selects the vendor default |
| Benchmark.BufferSize | VulkanTransposition.c:708 | the byte size is a multiple of 4, and exactly 4·size[0]·size[1]·size[2] when that fits in 64 bits |
| Benchmark.WrappedMultipleOfFour | VulkanTransposition.c:712 | wrapping modulo 2^64 keeps a multiple of 4 a multiple of 4 |
| Benchmark.SquareBufferSize | VulkanTransposition.c:708 | a square problem of side below 2^31 has exactly 4·size² bytes |
| Benchmark.SmallGranularityNotDispatchable | VulkanTransposition.c:872 | a requested granularity of 1 to 3 bytes, which main accepts, gives a zero workgroup side, so the app cannot be dispatched |
| Benchmark.AcceptedGranularityDispatchable | VulkanTransposition.c:841 | with the granularity restricted to 0 or 4 to 128 bytes as the help text documents, every app has nonzero workgroup sides |
| Benchmark.DefaultRunCoversProblem | VulkanTransposition.c:684-712 | the default 2048² problem with the default granularity has no zero workgroup side, a grid covering it exactly, and 16 MiB buffers for every vendor |
| Benchmark.LinearIndexByPlanes | VulkanTransposition.c:760 | the fill index written plane-major |
| Benchmark.LinearIndexInRange | VulkanTransposition.c:757-760 | every position of the fill loop lies inside the array |
| Benchmark.WrappedIndexInRange | VulkanTransposition.c:760 | the `uint32_t` index stays in the array, and is exact when the array has at most 2^32 elements |
| Benchmark.FillInput | VulkanTransposition.c:755-763 | when the array has at most 2^32 elements, every element holds its own linear index |
| Cli.Contains | VulkanTransposition.c:823 | `strstr(s, t) != NULL` holds exactly when `t` occurs somewhere in `s` |
| Cli.FlagSearch | VulkanTransposition.c:822-825 | the least index in the range whose argument contains the flag, or 0 when none does |
| Cli.FindFlag | VulkanTransposition.c:820-826 | findFlag returns the first index in [0, num) whose argument contains the flag, or 0 |
| Cli.FlagTestAsWritten | VulkanTransposition.c:851 | main's `findFlag(...) > 0` holds exactly when a later argument contains the flag and the program name does not |
| Cli.ProgramNameHidesFlag | VulkanTransposition.c:851 | for `./vulkan-demo -d 1` the `-d` option is not seen |
| Cli.FlagGivenMeansPresent | VulkanTransposition.c:834 | searching from argv[1] finds the flag exactly when some argument after the program name contains it |

## Left out

- Instance, device, command-pool and pipeline creation, validation layers, the debug messenger and `devices_list`: these are foreign driver calls. Fence creation is the `Gpu` constructor, and createApp's create calls are outcomes passed in.
- File I/O in `VkFFTReadShader`: the file system is a function from path to bytes. A file that cannot be opened (`fp == NULL`, after which the C code goes on to call `fseek` on it) is not modelled.
- The byte contents moved by `memcpy` through mapped memory, and the GPU's execution of the shaders: only which objects exist, which commands are submitted and the fence are modelled.
- Timing: `clock()`, the floating-point time per dispatch in `runApp` and the final report are floating point and I/O.
- Dispatch.RunApp: the `vkAllocateCommandBuffers` result is overwritten by the next call in the source, so the model takes only the new handle and always adds it.
- Dispatch.RunApp: it requires every workgroup side to be nonzero, because `appendApp` divides by it. main does not ensure this for `-c 1` to `-c 3` (see Findings).
- Dispatch.RunApp, Transfer.TransferDataFromCPU, Transfer.TransferDataToCPU: each requires an unsignaled fence, as `vkQueueSubmit` does. The source does not guarantee it. `VulkanTest` ignores the results of both transfers (lines 765 and 779) and then calls `runApp` (771, 791). A transfer whose `vkWaitForFences` returns VK_TIMEOUT leaves the fence submitted (the fence history stops after `Submitted`), and the next submit then uses a fence that is still pending. The model does not cover that call.
- Transfer.TransferDataToCPU: the C function has no final `return`, so the caller receives an indeterminate value; the model returns VK_SUCCESS, the code of its last checked call. The result of `vkEndCommandBuffer` is discarded, as in the source.
- Kernel.CreateApp: it does not model the shader module that leaks when pipeline creation fails, nor the layout-bindings array that is not freed when descriptor-set-layout creation fails.
- `deleteApp` and the teardown at the end of `VulkanTest`: releasing objects is modelled only inside the transfers.
- The `VulkanTest` sequence itself (three createApp calls, the transfers whose results it ignores, three runApp calls) is not one Dafny method; its configuration arithmetic is in `Benchmark`.
- `main`'s option parsing with `sscanf`, and its help and error messages; only `findFlag` is modelled.
- Benchmark.FillInput: the array holds integers, not the `float`s of the source. Indices above 2^24 would be rounded there. The contract says nothing about arrays of more than 2^32 elements, where the `uint32_t` index wraps.
- Benchmark.DefaultCoalescedMemory: vendor 0x13B5 is labelled AMD in the source (it is ARM's PCI vendor ID); the model keeps the value and gives it 64 bytes as the source does.
- Transfer.Upload, Transfer.Download, Device.Gpu.FinishSubmission and Device.Gpu.BeginRecording are parts of the C functions split out to keep each proof small. They do not exist as functions in the source.

## Findings

| source | as written | input that shows it | evidently intended | confidence | as-written member | corrected member |
|---|---|---|---|---|---|---|
| VulkanTransposition.c:822 | `findFlag` scans from `argv[0]`, and `main` treats a result of 0 as "flag absent" | program name `./vulkan-demo`, arguments `-d 1`: argv[0] contains `-d`, so findFlag returns 0 and the device option is ignored | search from argv[1], so the flag counts as given exactly when an argument after the program name contains it | medium, not executed | Cli.ProgramNameHidesFlag | Cli.FlagGivenMeansPresent |
| VulkanTransposition.c:872 | `-c X` is stored as read, with no check against the 4 to 128 bytes the help text documents (841) | `-c 2`: the workgroup side is `2 / sizeof(float) == 0`, and appendApp's grid divides by it (429) | reject a granularity outside 4 to 128 bytes, as 0 selects the vendor default | high, not executed | Benchmark.SmallGranularityNotDispatchable | Benchmark.AcceptedGranularityDispatchable |
