/** The compute-kernel builder: the application record (`VkApplication`), the
    specialization constants derived from the problem size and the coalescing
    granularity, the descriptor layout and writes, the dispatch grid, and
    createApp, which puts them together. */
module Kernel {
  import opened Vulkan
  import Shader

  const SIZEOF_FLOAT: nat := 4
  const SIZEOF_UINT32: nat := 4
  /** Six uint32 specialization constants: localSize[3] then inputStride[3]. */
  const SPECIALIZATION_CONSTANT_COUNT: nat := 6

  datatype SpecializationConstants = SpecializationConstants(localSize: Extent, inputStride: Extent)

  datatype PushConstantsLayout = PushConstantsLayout(pushID: uint32)

  /** VkApplication: problem size, coalescing granularity, the derived
      constants, and the objects createApp makes. Copying the record copies
      the buffer handles, as the C struct copy does. */
  datatype App = App(
    size: Extent,
    coalescedMemory: uint32,
    specializationConstants: SpecializationConstants,
    pushConstants: PushConstantsLayout,
    descriptorPool: Handle,
    descriptorSetLayout: Handle,
    descriptorSet: Handle,
    pipelineLayout: Handle,
    pipeline: Handle,
    inputBufferSize: uint64,
    inputBuffer: Handle,
    outputBufferSize: uint64,
    outputBuffer: Handle)

  /** The workgroup shape and buffer strides createApp stores: a square
      workgroup of `coalescedMemory / sizeof(float)` lanes per side, one deep,
      and the row-major strides of the problem. `size[0] * size[1]` is a
      `uint32_t` product, so it wraps modulo 2^32. */
  function DeriveSpecializationConstants(size: Extent, coalescedMemory: uint32): (sc: SpecializationConstants)
    ensures size[0] as int * size[1] as int < UINT32_LIMIT ==> sc.inputStride[2] == size[0] as int * size[1] as int
  {
    var side := coalescedMemory / SIZEOF_FLOAT;
    SpecializationConstants([side, side, 1], [1, size[0], Wrap32(size[0] as int * size[1] as int)])
  }

  /** A workgroup row of float lanes spans the coalesced bytes: exactly when
      the granularity is a multiple of 4, otherwise it falls short by the
      remainder. */
  lemma WorkgroupRowSpansCoalescedBytes(size: Extent, coalescedMemory: uint32)
    ensures var sc := DeriveSpecializationConstants(size, coalescedMemory);
      && sc.localSize[0] == sc.localSize[1]
      && sc.localSize[2] == 1
      && sc.localSize[0] * SIZEOF_FLOAT <= coalescedMemory < (sc.localSize[0] + 1) * SIZEOF_FLOAT
      && (coalescedMemory % 4 == 0 <==> sc.localSize[0] * SIZEOF_FLOAT == coalescedMemory)
  {
  }

  /** The linear position of element (i, j, k) in a row-major array of the
      given size. */
  function LinearIndex(size: Extent, i: nat, j: nat, k: nat): nat {
    i + j * size[0] + k * size[0] * size[1]
  }

  /** The strides address the buffers row-major: element (i, j, k) is at
      i*stride[0] + j*stride[1] + k*stride[2], its linear index, as long as the
      plane size does not wrap. */
  lemma {:induction false} StridesAreRowMajor(size: Extent, coalescedMemory: uint32, i: nat, j: nat, k: nat)
    requires size[0] as int * size[1] as int < UINT32_LIMIT
    ensures var st := DeriveSpecializationConstants(size, coalescedMemory).inputStride;
      i * st[0] + j * st[1] + k * st[2] == LinearIndex(size, i, j, k)
  {
    var st := DeriveSpecializationConstants(size, coalescedMemory).inputStride;
    assert st[2] == size[0] * size[1];
    assert k * st[2] == k * size[0] * size[1] by {
      assert k * (size[0] * size[1]) == k * size[0] * size[1];
    }
  }

  /** The six constants in the order of the specialization data block. */
  function SpecializationData(sc: SpecializationConstants): (data: seq<uint32>)
    ensures |data| == SPECIALIZATION_CONSTANT_COUNT
  {
    sc.localSize + sc.inputStride
  }

  /** The value the kernel declares under each constant ID: 1 to 3 are the
      workgroup dimensions, 4 to 6 the strides. */
  function ConstantValue(sc: SpecializationConstants, constantID: nat): uint32
    requires 1 <= constantID <= SPECIALIZATION_CONSTANT_COUNT
  {
    if constantID <= 3 then sc.localSize[constantID - 1] else sc.inputStride[constantID - 4]
  }

  /** VkSpecializationMapEntry: constant ID, byte offset in the data block, byte size. */
  datatype MapEntry = MapEntry(constantID: nat, offset: nat, size: nat)

  /** The map entries cover the data block exactly: each lies inside it, they
      are in increasing order without overlap, and every byte of the block
      belongs to one of them. */
  ghost predicate TilesBlock(entries: seq<MapEntry>, dataSize: nat) {
    && (forall i :: 0 <= i < |entries| ==> entries[i].offset + entries[i].size <= dataSize)
    && (forall i, j :: 0 <= i < j < |entries| ==> entries[i].offset + entries[i].size <= entries[j].offset)
    && (forall b :: 0 <= b < dataSize ==> ByteCovered(entries, b))
  }

  /** Some entry's byte range contains byte `b` of the data block. */
  ghost predicate ByteCovered(entries: seq<MapEntry>, b: nat) {
    exists i :: 0 <= i < |entries| && entries[i].offset <= b < entries[i].offset + entries[i].size
  }

  /** Entries numbered as createApp numbers them tile the 24-byte block, and
      entry i reads constant i+1 from word i of the data. */
  lemma MapEntriesTile(entries: seq<MapEntry>, sc: SpecializationConstants)
    requires |entries| == SPECIALIZATION_CONSTANT_COUNT
    requires forall i :: 0 <= i < |entries| ==>
      entries[i] == MapEntry(i + 1, i * SIZEOF_UINT32, SIZEOF_UINT32)
    ensures TilesBlock(entries, SPECIALIZATION_CONSTANT_COUNT * SIZEOF_UINT32)
    ensures forall i :: 0 <= i < |entries| ==>
      && entries[i].offset % SIZEOF_UINT32 == 0
      && 1 <= entries[i].constantID <= SPECIALIZATION_CONSTANT_COUNT
      && SpecializationData(sc)[entries[i].offset / SIZEOF_UINT32] == ConstantValue(sc, entries[i].constantID)
  {
    forall b: nat | b < SPECIALIZATION_CONSTANT_COUNT * SIZEOF_UINT32
      ensures ByteCovered(entries, b)
    {
      var i := b / SIZEOF_UINT32;
      assert entries[i].offset <= b < entries[i].offset + entries[i].size;
    }
  }

  /** The loop of createApp that fills `VkSpecializationMapEntry specializationMapEntries[6]`. */
  method SpecializationMapEntries() returns (entries: array<MapEntry>)
    ensures fresh(entries) && entries.Length == SPECIALIZATION_CONSTANT_COUNT
    ensures forall i :: 0 <= i < entries.Length ==>
      entries[i] == MapEntry(i + 1, i * SIZEOF_UINT32, SIZEOF_UINT32)
  {
    entries := new MapEntry[SPECIALIZATION_CONSTANT_COUNT](_ => MapEntry(0, 0, 0));
    for i := 0 to SPECIALIZATION_CONSTANT_COUNT
      invariant forall k :: 0 <= k < i ==> entries[k] == MapEntry(k + 1, k * SIZEOF_UINT32, SIZEOF_UINT32)
    {
      entries[i] := MapEntry(i + 1, i * SIZEOF_UINT32, SIZEOF_UINT32);
    }
  }

  /** VkSpecializationInfo. */
  datatype SpecializationInfo = SpecializationInfo(dataSize: nat, mapEntries: seq<MapEntry>, data: seq<uint32>)

  datatype DescriptorType = StorageBuffer

  /** VkDescriptorPoolCreateInfo with its single pool size. */
  datatype DescriptorPoolCreateInfo = DescriptorPoolCreateInfo(
    maxSets: nat, poolSizeType: DescriptorType, descriptorCount: nat)

  /** VkDescriptorSetLayoutBinding; the stage flags are always the compute stage. */
  datatype LayoutBinding = LayoutBinding(binding: nat, descriptorType: DescriptorType,
                                         descriptorCount: nat, computeStageOnly: bool)

  /** The two storage-buffer descriptors of the kernel. */
  const DESCRIPTOR_COUNT: nat := 2

  /** The loop of createApp that fills `descriptorSetLayoutBindings`:
      binding i is one storage-buffer descriptor visible to the compute stage. */
  method DescriptorSetLayoutBindings() returns (bindings: array<LayoutBinding>)
    ensures fresh(bindings) && bindings.Length == DESCRIPTOR_COUNT
    ensures forall i :: 0 <= i < bindings.Length ==>
      bindings[i] == LayoutBinding(i, StorageBuffer, 1, true)
  {
    bindings := new LayoutBinding[DESCRIPTOR_COUNT](_ => LayoutBinding(0, StorageBuffer, 0, false));
    for i := 0 to DESCRIPTOR_COUNT
      invariant forall k :: 0 <= k < i ==> bindings[k] == LayoutBinding(k, StorageBuffer, 1, true)
    {
      bindings[i] := LayoutBinding(i, StorageBuffer, 1, true);
    }
  }

  /** VkDescriptorBufferInfo. */
  datatype DescriptorBufferInfo = DescriptorBufferInfo(buffer: Handle, offset: uint64, range: uint64)

  /** VkWriteDescriptorSet for one buffer descriptor. */
  datatype WriteDescriptorSet = WriteDescriptorSet(
    dstSet: Handle, dstBinding: nat, dstArrayElement: nat,
    descriptorType: DescriptorType, descriptorCount: nat, bufferInfo: DescriptorBufferInfo)

  /** The binding the kernel reads from (0) and writes to (1). */
  ghost predicate BindsBuffer(w: WriteDescriptorSet, dstSet: Handle, binding: nat, buffer: Handle, range: uint64) {
    w == WriteDescriptorSet(dstSet, binding, 0, StorageBuffer, 1, DescriptorBufferInfo(buffer, 0, range))
  }

  /** The loop of createApp that calls vkUpdateDescriptorSets once per
      binding: binding 0 gets the whole input buffer, binding 1 the whole
      output buffer, both from offset 0. Returns the updates in call order. */
  method DescriptorWrites(app: App) returns (writes: seq<WriteDescriptorSet>)
    ensures |writes| == DESCRIPTOR_COUNT
    ensures BindsBuffer(writes[0], app.descriptorSet, 0, app.inputBuffer, app.inputBufferSize)
    ensures BindsBuffer(writes[1], app.descriptorSet, 1, app.outputBuffer, app.outputBufferSize)
  {
    writes := [];
    for i := 0 to DESCRIPTOR_COUNT
      invariant |writes| == i
      invariant i > 0 ==> BindsBuffer(writes[0], app.descriptorSet, 0, app.inputBuffer, app.inputBufferSize)
      invariant i > 1 ==> BindsBuffer(writes[1], app.descriptorSet, 1, app.outputBuffer, app.outputBufferSize)
    {
      var descriptorBufferInfo := DescriptorBufferInfo(0, 0, 0);
      if i == 0 {
        descriptorBufferInfo := DescriptorBufferInfo(app.inputBuffer, 0, app.inputBufferSize);
      }
      if i == 1 {
        descriptorBufferInfo := DescriptorBufferInfo(app.outputBuffer, 0, app.outputBufferSize);
      }
      writes := writes + [WriteDescriptorSet(app.descriptorSet, i, 0, StorageBuffer, 1, descriptorBufferInfo)];
    }
  }

  /** VkPushConstantRange: compute stage, offset, byte size. */
  datatype PushConstantRange = PushConstantRange(offset: nat, size: nat)

  /** `sizeof(VkAppPushConstantsLayout)`: one uint32 field. */
  const PUSH_CONSTANTS_SIZE: nat := 4

  /** Everything createApp hands to the driver to build the pipeline. */
  datatype PipelineSetup = PipelineSetup(
    pool: DescriptorPoolCreateInfo,
    layoutBindings: seq<LayoutBinding>,
    writes: seq<WriteDescriptorSet>,
    pushConstantRange: PushConstantRange,
    specialization: SpecializationInfo,
    shader: Shader.ShaderModuleCreateInfo)

  /** The driver's answers to the create calls of createApp, in call order. */
  datatype CreateAppOutcomes = CreateAppOutcomes(
    descriptorPool: Created,
    descriptorSetLayout: Created,
    descriptorSet: Created,
    pipelineLayout: Created,
    shaderModule: Created,
    pipeline: Created)

  /** The result codes of createApp's steps, in order; the shader step fails
      on its own for an unknown kernel identifier. */
  function CreateAppSteps(shaderID: uint32, o: CreateAppOutcomes): seq<VkResult> {
    [ o.descriptorPool.result,
      o.descriptorSetLayout.result,
      o.descriptorSet.result,
      o.pipelineLayout.result,
      if shaderID <= 2 then o.shaderModule.result else ErrorInitializationFailed,
      o.pipeline.result ]
  }

  /** The app with everything but the objects createApp makes and the constants it derives. */
  ghost predicate SameInputs(a: App, b: App) {
    && a.size == b.size && a.coalescedMemory == b.coalescedMemory && a.pushConstants == b.pushConstants
    && a.inputBufferSize == b.inputBufferSize && a.inputBuffer == b.inputBuffer
    && a.outputBufferSize == b.outputBufferSize && a.outputBuffer == b.outputBuffer
  }

  /** createApp: builds the descriptor pool, layout and set, points the set's
      two bindings at the app's buffers, builds the pipeline layout with one
      4-byte push-constant range, derives the specialization constants,
      creates the shader module of the chosen variant and the pipeline from
      it. Stops at the first failing step and returns its code; the app then
      holds the objects made so far. */
  method CreateApp(app: App, shaderID: uint32, shaderDir: string, files: string -> seq<bv8>, o: CreateAppOutcomes)
    returns (res: VkResult, app': App, setup: Option<PipelineSetup>)
    ensures var steps := CreateAppSteps(shaderID, o);
      var k := FailAt(steps);
      && res == Propagated(steps)
      && SameInputs(app', app)
      && app'.descriptorPool == (if k > 0 then o.descriptorPool.handle else app.descriptorPool)
      && app'.descriptorSetLayout == (if k > 1 then o.descriptorSetLayout.handle else app.descriptorSetLayout)
      && app'.descriptorSet == (if k > 2 then o.descriptorSet.handle else app.descriptorSet)
      && app'.pipelineLayout == (if k > 3 then o.pipelineLayout.handle else app.pipelineLayout)
      && app'.specializationConstants ==
           (if k > 3 then DeriveSpecializationConstants(app.size, app.coalescedMemory) else app.specializationConstants)
      && app'.pipeline == (if k > 5 then o.pipeline.handle else app.pipeline)
    ensures setup.Some? <==> res == Success
    ensures res == Success ==>
      var s := setup.value;
      && s.pool == DescriptorPoolCreateInfo(1, StorageBuffer, DESCRIPTOR_COUNT)
      && |s.layoutBindings| == DESCRIPTOR_COUNT
      && (forall i :: 0 <= i < DESCRIPTOR_COUNT ==> s.layoutBindings[i] == LayoutBinding(i, StorageBuffer, 1, true))
      && |s.writes| == DESCRIPTOR_COUNT
      && BindsBuffer(s.writes[0], app'.descriptorSet, 0, app.inputBuffer, app.inputBufferSize)
      && BindsBuffer(s.writes[1], app'.descriptorSet, 1, app.outputBuffer, app.outputBufferSize)
      && s.pushConstantRange == PushConstantRange(0, PUSH_CONSTANTS_SIZE)
      && s.specialization.dataSize == SPECIALIZATION_CONSTANT_COUNT * SIZEOF_UINT32
      && TilesBlock(s.specialization.mapEntries, s.specialization.dataSize)
      && s.specialization.data == SpecializationData(app'.specializationConstants)
      && |s.specialization.mapEntries| == SPECIALIZATION_CONSTANT_COUNT
      && (forall i :: 0 <= i < SPECIALIZATION_CONSTANT_COUNT ==>
            s.specialization.mapEntries[i] == MapEntry(i + 1, i * SIZEOF_UINT32, SIZEOF_UINT32))
      && shaderID <= 2
      && s.shader.path == shaderDir + Shader.ShaderFileName(shaderID).value
      && |s.shader.code| == Shader.PaddedLength(|files(s.shader.path)|)
      && s.shader.code[..|files(s.shader.path)|] == files(s.shader.path)
      && (forall i :: |files(s.shader.path)| <= i < |s.shader.code| ==> s.shader.code[i] == 0)
      && s.shader.codeSize == Wrap32(Shader.PaddedLength(|files(s.shader.path)|))
  {
    ghost var steps := CreateAppSteps(shaderID, o);
    app' := app;
    setup := None;
    // two storage-buffer descriptors in one set in one pool
    var pool := DescriptorPoolCreateInfo(1, StorageBuffer, DESCRIPTOR_COUNT);
    res := o.descriptorPool.result;
    if res != Success {
      FailAtIs(steps, 0);
      return;
    }
    app' := app'.(descriptorPool := o.descriptorPool.handle);
    var layoutBindings := DescriptorSetLayoutBindings();
    res := o.descriptorSetLayout.result;
    if res != Success {
      FailAtIs(steps, 1);
      return;
    }
    app' := app'.(descriptorSetLayout := o.descriptorSetLayout.handle);
    res := o.descriptorSet.result;
    if res != Success {
      FailAtIs(steps, 2);
      return;
    }
    app' := app'.(descriptorSet := o.descriptorSet.handle);
    var writes := DescriptorWrites(app');
    var pushConstantRange := PushConstantRange(0, PUSH_CONSTANTS_SIZE);
    res := o.pipelineLayout.result;
    if res != Success {
      FailAtIs(steps, 3);
      return;
    }
    app' := app'.(pipelineLayout := o.pipelineLayout.handle);
    app' := app'.(specializationConstants := DeriveSpecializationConstants(app.size, app.coalescedMemory));
    var entries := SpecializationMapEntries();
    MapEntriesTile(entries[..], app'.specializationConstants);
    var specialization := SpecializationInfo(SPECIALIZATION_CONSTANT_COUNT * SIZEOF_UINT32, entries[..],
                                             SpecializationData(app'.specializationConstants));
    var shaderModule, shaderInfo;
    res, shaderModule, shaderInfo := Shader.CreateShaderModule(shaderDir, shaderID, files, o.shaderModule);
    if res != Success {
      FailAtIs(steps, 4);
      return;
    }
    res := o.pipeline.result;
    if res != Success {
      FailAtIs(steps, 5);
      return;
    }
    app' := app'.(pipeline := o.pipeline.handle);
    FailAtIs(steps, 6);
    // the shader module is destroyed here: the pipeline no longer needs it
    setup := Some(PipelineSetup(pool, layoutBindings[..], writes, pushConstantRange, specialization, shaderInfo.value));
  }

  /** The dispatch grid of appendApp: `size[d] / localSize[d]` workgroups in
      each dimension, the largest count whose workgroups fit in the problem. */
  function Grid(size: Extent, localSize: Extent): (grid: Extent)
    requires forall d :: 0 <= d < 3 ==> localSize[d] > 0
    ensures forall d :: 0 <= d < 3 ==>
      grid[d] as int * localSize[d] as int <= size[d] < (grid[d] as int + 1) * localSize[d] as int
  {
    [size[0] / localSize[0], size[1] / localSize[1], size[2] / localSize[2]]
  }

  /** The grid covers dimension d exactly when the size is a multiple of the
      workgroup size; otherwise the last `size[d] % localSize[d]` elements of
      that dimension get no workgroup. */
  lemma GridCoverage(size: Extent, localSize: Extent, d: nat)
    requires forall e :: 0 <= e < 3 ==> localSize[e] > 0
    requires d < 3
    ensures var covered := Grid(size, localSize)[d] as int * localSize[d] as int;
      && (covered == size[d] <==> size[d] % localSize[d] == 0)
      && size[d] - covered == size[d] % localSize[d]
  {
    var n, m := size[d] as int, localSize[d] as int;
    assert Grid(size, localSize)[d] as int == n / m;
    TruncatedShortfall(n, m);
  }

  lemma TruncatedShortfall(n: nat, m: nat)
    requires m > 0
    ensures n - n / m * m == n % m
    ensures n / m * m == n <==> n % m == 0
  {
  }
}
