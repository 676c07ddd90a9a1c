/** The configuration arithmetic of the benchmark driver (VulkanTest): the
    square problem extent, the coalescing granularity chosen per vendor, the
    byte size of the input and output buffers, and the loop that fills the
    input with each element's own linear index. */
module Benchmark {
  import opened Vulkan
  import opened Kernel
  import Device
  import Dispatch

  const VENDOR_NVIDIA: uint32 := 0x10DE
  const VENDOR_INTEL: uint32 := 0x8086
  /** Listed in the vendor switch under the AMD label. */
  const VENDOR_13B5: uint32 := 0x13B5

  /** The default side of the square problem. */
  const DEFAULT_SIZE: uint32 := 2048

  /** The usage and memory properties of the input and output buffers. The
      property mask passed is VK_MEMORY_HEAP_DEVICE_LOCAL_BIT, a heap flag
      whose value 0x1 is that of VK_MEMORY_PROPERTY_DEVICE_LOCAL_BIT. */
  const DEVICE_BUFFER_USAGE: bv32 :=
    Device.BUFFER_USAGE_STORAGE_BUFFER | Device.BUFFER_USAGE_TRANSFER_SRC | Device.BUFFER_USAGE_TRANSFER_DST
  const DEVICE_BUFFER_PROPERTIES: bv32 := 0x1

  /** The vendor switch used when no granularity is requested. */
  function DefaultCoalescedMemory(vendorID: uint32): (c: uint32)
    ensures c == 32 <==> vendorID == VENDOR_NVIDIA
    ensures c == 64 <==> vendorID != VENDOR_NVIDIA
  {
    if vendorID == VENDOR_NVIDIA then 32
    else if vendorID == VENDOR_INTEL then 64
    else if vendorID == VENDOR_13B5 then 64
    else 64
  }

  /** The granularity stored in the app: the requested one, or the vendor
      default when the request is 0. */
  function CoalescedMemory(requested: uint32, vendorID: uint32): (c: uint32)
    ensures requested != 0 ==> c == requested
    ensures requested == 0 ==> (c == 32 <==> vendorID == VENDOR_NVIDIA)
    ensures requested == 0 ==> (c == 64 <==> vendorID != VENDOR_NVIDIA)
  {
    if requested == 0 then DefaultCoalescedMemory(vendorID) else requested
  }

  /** app.size: a `size` x `size` x 1 problem. */
  function ProblemExtent(size: uint32): Extent {
    [size, size, 1]
  }

  /** The number of elements of a problem. */
  function Elements(size: Extent): nat {
    size[0] as int * size[1] as int * size[2] as int
  }

  /** `sizeof(float) * size[0] * size[1] * size[2]`, a 64-bit `VkDeviceSize`
      product, so it wraps modulo 2^64. */
  function BufferSize(size: Extent): (bytes: uint64)
    ensures bytes % SIZEOF_FLOAT == 0
    ensures SIZEOF_FLOAT * Elements(size) < UINT64_LIMIT ==> bytes == SIZEOF_FLOAT * Elements(size)
  {
    WrappedMultipleOfFour(Elements(size));
    Wrap64(SIZEOF_FLOAT * Elements(size))
  }

  /** 2^64 is a multiple of 4, so wrapping keeps a multiple of 4 one. */
  lemma WrappedMultipleOfFour(x: nat)
    ensures Wrap64(4 * x) % 4 == 0
  {
    var q := (4 * x) / UINT64_LIMIT;
    assert Wrap64(4 * x) == 4 * (x - q * 0x4000_0000_0000_0000);
  }

  /** The app VulkanTest builds before creating the pipelines: zero-initialised,
      with the problem extent, the granularity, and the two buffers, whose
      sizes are both BufferSize of the extent. */
  function AppTemplate(size: uint32, requested: uint32, vendorID: uint32, inputBuffer: Handle, outputBuffer: Handle)
    : (app: App)
    ensures app.size == ProblemExtent(size)
    ensures app.coalescedMemory == CoalescedMemory(requested, vendorID)
    ensures app.inputBufferSize == app.outputBufferSize == BufferSize(app.size)
    ensures app.inputBuffer == inputBuffer && app.outputBuffer == outputBuffer
  {
    var extent := ProblemExtent(size);
    var bytes := BufferSize(extent);
    App(extent, CoalescedMemory(requested, vendorID),
        SpecializationConstants([0, 0, 0], [0, 0, 0]), PushConstantsLayout(0),
        0, 0, 0, 0, 0, bytes, inputBuffer, bytes, outputBuffer)
  }

  /** A square problem of side below 2^31 never wraps the buffer size: it is
      4 bytes per element. */
  lemma SquareBufferSize(size: uint32)
    requires size < 0x8000_0000
    ensures BufferSize(ProblemExtent(size)) == SIZEOF_FLOAT * size * size
  {
    var e := ProblemExtent(size);
    assert Elements(e) == size * size;
    SquareBound(size, 0x8000_0000);
  }

  lemma SquareBound(x: nat, b: nat)
    requires x < b
    ensures x * x < b * b
  {
    assert x * x <= x * b;
  }

  /** With the default problem and no requested granularity, every vendor gets
      a workgroup with no zero side whose grid covers the problem exactly,
      and buffers of 16 MiB. */
  lemma DefaultRunCoversProblem(vendorID: uint32, inputBuffer: Handle, outputBuffer: Handle)
    ensures var app := AppTemplate(DEFAULT_SIZE, 0, vendorID, inputBuffer, outputBuffer);
      var local := DeriveSpecializationConstants(app.size, app.coalescedMemory).localSize;
      && (forall d :: 0 <= d < 3 ==> local[d] > 0)
      && (forall d :: 0 <= d < 3 ==> Grid(app.size, local)[d] * local[d] == app.size[d])
      && app.inputBufferSize == 16 * 1024 * 1024
  {
    var app := AppTemplate(DEFAULT_SIZE, 0, vendorID, inputBuffer, outputBuffer);
    var local := DeriveSpecializationConstants(app.size, app.coalescedMemory).localSize;
    assert local == [8, 8, 1] || local == [16, 16, 1];
    forall d | 0 <= d < 3
      ensures Grid(app.size, local)[d] * local[d] == app.size[d]
    {
      GridCoverage(app.size, local, d);
    }
    SquareBufferSize(DEFAULT_SIZE);
  }

  /** The app createApp leaves behind for a template: the template with the
      constants derived from its extent and granularity. */
  function DerivedApp(size: uint32, requested: uint32, vendorID: uint32, inputBuffer: Handle, outputBuffer: Handle)
    : (app: App)
    ensures app.coalescedMemory == CoalescedMemory(requested, vendorID)
    ensures app.specializationConstants == DeriveSpecializationConstants(ProblemExtent(size), app.coalescedMemory)
  {
    var template := AppTemplate(size, requested, vendorID, inputBuffer, outputBuffer);
    template.(specializationConstants := DeriveSpecializationConstants(template.size, template.coalescedMemory))
  }

  /** main takes any `-c` value sscanf reads: a granularity of 1 to 3 bytes
      makes the workgroup side `c / sizeof(float)` zero, so appendApp's grid
      divides by zero. */
  lemma SmallGranularityNotDispatchable(size: uint32, requested: uint32, vendorID: uint32,
                                        inputBuffer: Handle, outputBuffer: Handle)
    requires 1 <= requested < SIZEOF_FLOAT
    ensures var app := DerivedApp(size, requested, vendorID, inputBuffer, outputBuffer);
      && app.specializationConstants.localSize[0] == 0
      && app.specializationConstants.localSize[1] == 0
      && !Dispatch.Dispatchable(app)
  {
  }

  /** The granularities the help text documents: 0 (the vendor default) or 4
      to 128 bytes. */
  predicate GranularityAccepted(requested: uint32) {
    requested == 0 || 4 <= requested <= 128
  }

  /** With the documented range enforced, every app can be dispatched. */
  lemma AcceptedGranularityDispatchable(size: uint32, requested: uint32, vendorID: uint32,
                                        inputBuffer: Handle, outputBuffer: Handle)
    requires GranularityAccepted(requested)
    ensures Dispatch.Dispatchable(DerivedApp(size, requested, vendorID, inputBuffer, outputBuffer))
  {
  }

  /** Position (i, j, k) of the fill loop, written plane-major. */
  lemma {:induction false} LinearIndexByPlanes(size: Extent, i: nat, j: nat, k: nat)
    ensures LinearIndex(size, i, j, k) == k * (size[0] as int * size[1] as int) + j * size[0] as int + i
  {
    var s0, s1 := size[0] as int, size[1] as int;
    assert k * s0 * s1 == k * (s0 * s1);
  }

  /** Positions of the fill loop lie in the array. */
  lemma {:induction false} LinearIndexInRange(size: Extent, i: nat, j: nat, k: nat)
    requires i < size[0] && j < size[1] && k < size[2]
    ensures LinearIndex(size, i, j, k) < Elements(size)
  {
    var s0, s1, s2 := size[0] as int, size[1] as int, size[2] as int;
    LinearIndexByPlanes(size, i, j, k);
    assert j * s0 + i < s1 * s0 by {
      assert j * s0 <= (s1 - 1) * s0;
    }
    assert k * (s0 * s1) + s0 * s1 <= s2 * (s0 * s1) by {
      assert k * (s0 * s1) <= (s2 - 1) * (s0 * s1);
    }
    assert Elements(size) == s2 * (s0 * s1);
  }

  /** The step from one row / plane of the fill loop to the next. */
  lemma RowStep(base: nat, j: nat, s0: nat)
    ensures base + j * s0 + s0 == base + (j + 1) * s0
  {
  }

  lemma PlaneStep(k: nat, s1: nat, s0: nat)
    ensures k * (s0 * s1) + s1 * s0 == (k + 1) * (s0 * s1)
  {
  }

  /** A position of the fill loop as a `uint32_t`: below 2^32 it is exact,
      and it always lies in an array longer than 2^32. */
  lemma WrappedIndexInRange(index: nat, length: nat)
    requires index < length
    ensures Wrap32(index) < length
    ensures length <= UINT32_LIMIT ==> Wrap32(index) == index
  {
  }

  /** The input generator: element (i, j, k) gets its own linear index, the
      index being the `uint32_t` expression `i + j*size[0] + k*size[0]*size[1]`.
      When the array has at most 2^32 elements that expression never wraps
      and every element holds its own position. */
  method FillInput(a: array<int>, size: Extent)
    requires a.Length == Elements(size)
    modifies a
    ensures a.Length <= UINT32_LIMIT ==> forall t :: 0 <= t < a.Length ==> a[t] == t
  {
    var s0, s1, s2 := size[0] as int, size[1] as int, size[2] as int;
    ghost var plane := s0 * s1;
    ghost var small := a.Length <= UINT32_LIMIT;
    // the number of leading elements written so far
    ghost var done := 0;
    var k := 0;
    while k < s2
      invariant 0 <= k <= s2
      invariant done == k * plane && done <= a.Length
      invariant small ==> forall t :: 0 <= t < done ==> a[t] == t
    {
      var j := 0;
      while j < s1
        invariant 0 <= j <= s1
        invariant done == k * plane + j * s0 && done <= a.Length
        invariant small ==> forall t :: 0 <= t < done ==> a[t] == t
      {
        ghost var rowStart := done;
        var i := 0;
        while i < s0
          invariant 0 <= i <= s0
          invariant done == rowStart + i && done <= a.Length
          invariant small ==> forall t :: 0 <= t < done ==> a[t] == t
        {
          LinearIndexInRange(size, i, j, k);
          LinearIndexByPlanes(size, i, j, k);
          var linear := i + j * s0 + k * s0 * s1;
          assert linear == done;
          WrappedIndexInRange(linear, a.Length);
          var index := Wrap32(linear);
          a[index] := index;
          done := done + 1;
          i := i + 1;
        }
        RowStep(k * plane, j, s0);
        j := j + 1;
      }
      PlaneStep(k, s1, s0);
      k := k + 1;
    }
    assert Elements(size) == s2 * plane;
  }
}
