/** The dispatch/batch runner: appendApp's five-command sequence and runApp,
    which records `batch` copies of it into one command buffer, submits it
    once and waits on the shared fence. */
module Dispatch {
  import opened Vulkan
  import opened Kernel
  import opened Device

  /** The workgroup shape an app can be dispatched with: no dimension is 0
      (appendApp divides the problem size by it). */
  ghost predicate Dispatchable(app: App) {
    forall d :: 0 <= d < 3 ==> app.specializationConstants.localSize[d] > 0
  }

  /** The grid of workgroups appendApp dispatches for `app`. */
  function AppGrid(app: App): Extent
    requires Dispatchable(app)
  {
    Grid(app.size, app.specializationConstants.localSize)
  }

  /** The number of commands appendApp records. */
  const SEQUENCE_LENGTH: nat := 5

  /** What appendApp records: push the constant block with pushID 0, bind the
      pipeline, bind the descriptor set, dispatch the grid, and order the
      dispatch's shader writes before the next dispatch's shader reads. */
  function DispatchSequence(app: App): (commands: seq<Command>)
    requires Dispatchable(app)
    ensures |commands| == SEQUENCE_LENGTH
  {
    var grid := AppGrid(app);
    [ PushConstants(app.pipelineLayout, 0, PUSH_CONSTANTS_SIZE, 0),
      BindPipeline(app.pipeline),
      BindDescriptorSets(app.pipelineLayout, 0, app.descriptorSet),
      Dispatch(grid[0], grid[1], grid[2]),
      PipelineBarrier(ShaderWriteAccess, ShaderReadAccess) ]
  }

  /** The commands of `n` consecutive appendApp calls. */
  function BatchCommands(app: App, n: nat): seq<Command>
    requires Dispatchable(app)
  {
    if n == 0 then [] else BatchCommands(app, n - 1) + DispatchSequence(app)
  }

  lemma {:induction false} BatchLength(app: App, n: nat)
    requires Dispatchable(app)
    ensures |BatchCommands(app, n)| == SEQUENCE_LENGTH * n
  {
    if n > 0 {
      BatchLength(app, n - 1);
    }
  }

  /** A batch of n is n back-to-back copies of the five-command sequence:
      command j of repetition r sits at 5*r + j. */
  lemma {:induction false} BatchAt(app: App, n: nat, r: nat, j: nat)
    requires Dispatchable(app)
    requires r < n && j < SEQUENCE_LENGTH
    ensures |BatchCommands(app, n)| == SEQUENCE_LENGTH * n
    ensures BatchCommands(app, n)[SEQUENCE_LENGTH * r + j] == DispatchSequence(app)[j]
  {
    BatchLength(app, n);
    BatchLength(app, n - 1);
    if r < n - 1 {
      BatchAt(app, n - 1, r, j);
    }
  }

  /** Every dispatch of a batch covers the problem with the same grid, and
      every one is followed by the write-to-read barrier. */
  lemma BatchDispatches(app: App, n: nat, r: nat)
    requires Dispatchable(app) && r < n
    ensures var commands := BatchCommands(app, n);
      && |commands| == SEQUENCE_LENGTH * n
      && commands[SEQUENCE_LENGTH * r + 3] == Dispatch(AppGrid(app)[0], AppGrid(app)[1], AppGrid(app)[2])
      && commands[SEQUENCE_LENGTH * r + 4] == PipelineBarrier(ShaderWriteAccess, ShaderReadAccess)
  {
    BatchAt(app, n, r, 3);
    BatchAt(app, n, r, 4);
  }

  /** appendApp: sets the app's pushID to 0 and appends the sequence. */
  method AppendApp(app: App, commandBuffer: seq<Command>) returns (app': App, commandBuffer': seq<Command>)
    requires Dispatchable(app)
    ensures app' == app.(pushConstants := PushConstantsLayout(0))
    ensures commandBuffer' == commandBuffer + DispatchSequence(app)
  {
    app' := app.(pushConstants := PushConstantsLayout(0));
    var grid := Grid(app'.size, app'.specializationConstants.localSize);
    commandBuffer' := commandBuffer
      + [PushConstants(app'.pipelineLayout, 0, PUSH_CONSTANTS_SIZE, app'.pushConstants.pushID)]
      + [BindPipeline(app'.pipeline)]
      + [BindDescriptorSets(app'.pipelineLayout, 0, app'.descriptorSet)]
      + [Dispatch(grid[0], grid[1], grid[2])]
      + [PipelineBarrier(ShaderWriteAccess, ShaderReadAccess)];
  }

  /** The recording loop of runApp: `batch` calls of appendApp into an empty
      command buffer. */
  method RecordBatch(app: App, batch: uint32) returns (app': App, commandBuffer: seq<Command>)
    requires Dispatchable(app)
    ensures commandBuffer == BatchCommands(app, batch)
    ensures app' == if batch > 0 then app.(pushConstants := PushConstantsLayout(0)) else app
  {
    app' := app;
    commandBuffer := [];
    var i := 0;
    while i < batch
      invariant 0 <= i <= batch
      invariant Dispatchable(app')
      invariant commandBuffer == BatchCommands(app, i)
      invariant app' == (if i > 0 then app.(pushConstants := PushConstantsLayout(0)) else app)
    {
      app', commandBuffer := AppendApp(app', commandBuffer);
      i := i + 1;
    }
  }

  /** The driver's answers to runApp's calls. The command buffer's allocation
      result is overwritten by the next call in runApp, so only its handle
      appears here. */
  datatype RunOutcomes = RunOutcomes(
    commandBuffer: Handle,
    begin: VkResult,
    end: VkResult,
    submit: VkResult,
    wait: VkResult,
    reset: VkResult)

  function RunSteps(o: RunOutcomes): seq<VkResult> {
    [o.begin, o.end, o.submit, o.wait, o.reset]
  }

  /** runApp: records `batch` repetitions of appendApp into one fresh command
      buffer, submits it with the fence, waits, resets the fence and frees the
      command buffer. It returns the first failing call's code; after a
      failure nothing is rolled back (the command buffer stays allocated, the
      fence stays where the failed call left it). */
  method RunApp(gpu: Gpu, app: App, batch: uint32, o: RunOutcomes) returns (res: VkResult, app': App)
    requires gpu.Valid() && gpu.fence == Unsignaled
    requires o.commandBuffer !in gpu.commandBuffers
    requires Dispatchable(app)
    modifies gpu`fence, gpu`fenceLog, gpu`submissions, gpu`commandBuffers
    ensures gpu.Valid()
    ensures var steps := RunSteps(o);
      var k := FailAt(steps);
      && res == Propagated(steps)
      && gpu.submissions == old(gpu.submissions) + (if k > 2 then [BatchCommands(app, batch)] else [])
      && gpu.fenceLog == old(gpu.fenceLog) + FencePath(FenceStepsDone(k, 2))
      && gpu.commandBuffers == (if k == 5 then old(gpu.commandBuffers) else old(gpu.commandBuffers) + {o.commandBuffer})
      && app' == (if k > 0 && batch > 0 then app.(pushConstants := PushConstantsLayout(0)) else app)
    ensures res == Success ==> gpu.fence == Unsignaled
  {
    ghost var steps := RunSteps(o);
    app' := app;
    // vkAllocateCommandBuffers; its result is not checked
    gpu.commandBuffers := gpu.commandBuffers + {o.commandBuffer};
    res := o.begin;
    if res != Success {
      FailAtIs(steps, 0);
      return;
    }
    var commandBuffer;
    app', commandBuffer := RecordBatch(app, batch);
    SucceededFirst(steps);
    assert steps[1..] == [o.end, o.submit, o.wait, o.reset];
    res := gpu.FinishSubmission(o.commandBuffer, commandBuffer, o.end, o.submit, o.wait, o.reset);
  }
}
