/** The host program's accelerator interface (host_api/api/transpose_fpga.c): platform and
    device set-up, the per-size program cache, and the orchestrator fpga_run, which
    transposes `iter` matrices in place in the caller's array. */
module HostTranspose {
  import opened Fpga
  import opened OpenCL
  import opened BlockIndex
  import opened BitstreamCache

  // ---------------------------------------------------------------------------
  // init, cleanup, init_program, cleanup_program

  /** init, and fpga_initialize_ which only calls it: looks up the "Intel(R) FPGA" platform
      and returns 1 when it is missing; otherwise queries the devices, whose result it does
      not check, and returns 0. */
  method Init(rt: Runtime, platformFound: bool, devicesFound: bool) returns (status: int)
    modifies rt
    ensures status == (if platformFound then 0 else 1)
    ensures rt.trace == old(rt.trace) + (if platformFound then [FindPlatform, GetDevices] else [FindPlatform])
    ensures rt.platform == platformFound && rt.devices == (if platformFound then devicesFound else old(rt.devices))
    ensures rt.context == old(rt.context) && rt.program == old(rt.program)
    ensures rt.queue1 == old(rt.queue1) && rt.queue2 == old(rt.queue2) && rt.queue3 == old(rt.queue3)
  {
    rt.platform := platformFound;
    rt.Call(FindPlatform);
    if !rt.platform {
      return 1;
    }
    rt.devices := devicesFound;
    rt.Call(GetDevices);
    return 0;
  }

  /** init_program: creates the context on the first device, loads the bitstream for the
      size from the data directory and builds it. It reads the first entry of the device
      list without a check, so the list must be non-NULL. A failed load ends the process
      and is not modelled. */
  method InitProgram(rt: Runtime, n: Dims, dataPath: string)
    requires rt.devices
    modifies rt
    ensures rt.trace == old(rt.trace) + [CreateContext, CreateProgram, BuildProgram]
    ensures rt.context && rt.program
    ensures rt.platform == old(rt.platform) && rt.devices == old(rt.devices)
    ensures rt.queue1 == old(rt.queue1) && rt.queue2 == old(rt.queue2) && rt.queue3 == old(rt.queue3)
  {
    rt.context := true;
    rt.Call(CreateContext);
    rt.program := true;
    rt.Call(CreateProgram);
    rt.Call(BuildProgram);
  }

  /** cleanup_program: releases the program and the context when their globals are
      non-NULL; the globals keep their values. */
  method CleanupProgram(rt: Runtime)
    modifies rt
    ensures rt.trace == old(rt.trace) + ProgramReleases(old(rt.program), old(rt.context))
    ensures rt.platform == old(rt.platform) && rt.devices == old(rt.devices)
    ensures rt.context == old(rt.context) && rt.program == old(rt.program)
    ensures rt.queue1 == old(rt.queue1) && rt.queue2 == old(rt.queue2) && rt.queue3 == old(rt.queue3)
  {
    if rt.program {
      rt.Call(ReleaseProgram);
    }
    if rt.context {
      rt.Call(ReleaseContext);
    }
  }

  /** cleanup, and fpga_final_ which only calls it: cleanup_program, then the device list
      is freed. */
  method Cleanup(rt: Runtime)
    modifies rt
    ensures rt.trace == old(rt.trace) + ProgramReleases(old(rt.program), old(rt.context)) + [FreeDevices]
    ensures rt.platform == old(rt.platform) && rt.devices == old(rt.devices)
    ensures rt.context == old(rt.context) && rt.program == old(rt.program)
    ensures rt.queue1 == old(rt.queue1) && rt.queue2 == old(rt.queue2) && rt.queue3 == old(rt.queue3)
  {
    CleanupProgram(rt);
    rt.Call(FreeDevices);
  }

  // ---------------------------------------------------------------------------
  // fpga_check_bitstream_

  /** The OpenCL calls that carry out a sequence of program changes, given which of the
      program and context globals are non-NULL when it starts. */
  function ProgramCalls(es: seq<ProgramEvent>, program: bool, context: bool): seq<Event>
    decreases |es|
  {
    if es == [] then []
    else match es[0]
      case ProgramInit(_) => [CreateContext, CreateProgram, BuildProgram] + ProgramCalls(es[1..], true, true)
      case ProgramCleanup => ProgramReleases(program, context) + ProgramCalls(es[1..], program, context)
  }

  /** Loading a program into an empty cache creates a context and a program and builds it. */
  lemma ProgramCallsInit(n: Dims, program: bool, context: bool)
    ensures ProgramCalls([ProgramInit(n)], program, context) == [CreateContext, CreateProgram, BuildProgram]
  {
    assert [ProgramInit(n)][1..] == [];
  }

  /** Replacing the program releases the old one's non-NULL handles first. */
  lemma ProgramCallsReplace(n: Dims, program: bool, context: bool)
    ensures ProgramCalls([ProgramCleanup, ProgramInit(n)], program, context)
      == ProgramReleases(program, context) + [CreateContext, CreateProgram, BuildProgram]
  {
    assert [ProgramCleanup, ProgramInit(n)][1..] == [ProgramInit(n)];
    ProgramCallsInit(n, program, context);
  }

  /** The first supported request: init_program. */
  method FirstProgram(rt: Runtime, n: Dims, dataPath: string)
    requires rt.devices
    modifies rt
    ensures rt.trace == old(rt.trace) + ProgramCalls([ProgramInit(n)], old(rt.program), old(rt.context))
    ensures rt.context && rt.program
    ensures rt.platform == old(rt.platform) && rt.devices == old(rt.devices)
    ensures rt.queue1 == old(rt.queue1) && rt.queue2 == old(rt.queue2) && rt.queue3 == old(rt.queue3)
  {
    ProgramCallsInit(n, rt.program, rt.context);
    InitProgram(rt, n, dataPath);
  }

  /** A supported request for a new size: cleanup_program, then init_program. */
  method ReplaceProgram(rt: Runtime, n: Dims, dataPath: string)
    requires rt.devices
    modifies rt
    ensures rt.trace == old(rt.trace) + ProgramCalls([ProgramCleanup, ProgramInit(n)], old(rt.program), old(rt.context))
    ensures rt.context && rt.program
    ensures rt.platform == old(rt.platform) && rt.devices == old(rt.devices)
    ensures rt.queue1 == old(rt.queue1) && rt.queue2 == old(rt.queue2) && rt.queue3 == old(rt.queue3)
  {
    ProgramCallsReplace(n, rt.program, rt.context);
    CleanupProgram(rt);
    InitProgram(rt, n, dataPath);
  }

  /** The static `transpose_size` of fpga_check_bitstream_, with the program changes made
      so far. */
  class Cache {
    var transposeSize: Dims
    ghost var changes: seq<ProgramEvent>

    /** The cached size is the initial (0, 0) or a supported size, and the changes made so
        far leave exactly that size's program loaded. */
    ghost predicate Valid()
      reads this
    {
      Reachable(transposeSize) && Apply(None, changes) == Some(Loaded(transposeSize))
    }

    constructor ()
      ensures Valid()
      ensures transposeSize == Unset && changes == []
    {
      transposeSize := Unset;
      changes := [];
    }

    /** fpga_check_bitstream_: returns 1 for a supported size and 0 otherwise; a supported
        size that differs from the cached one replaces the device program. */
    method CheckBitstream(rt: Runtime, dataPath: string, n: Dims) returns (supported: int)
      requires Valid()
      requires CheckStep(transposeSize, n).events != [] ==> rt.devices
      modifies this, rt
      ensures Valid()
      ensures var r := CheckStep(old(transposeSize), n);
        && supported == (if r.accepted then 1 else 0)
        && transposeSize == r.cached
        && changes == old(changes) + r.events
        && rt.trace == old(rt.trace) + ProgramCalls(r.events, old(rt.program), old(rt.context))
        && (r.events == [] ==> rt.context == old(rt.context) && rt.program == old(rt.program))
        && (r.events != [] ==> rt.context && rt.program)
      ensures rt.platform == old(rt.platform) && rt.devices == old(rt.devices)
      ensures rt.queue1 == old(rt.queue1) && rt.queue2 == old(rt.queue2) && rt.queue3 == old(rt.queue3)
    {
      ghost var r := CheckStep(transposeSize, n);
      StepInSync(transposeSize, n);
      ApplyConcat(None, changes, r.events);
      if (n.rows == 8 && n.cols == 8) || (n.rows == 16 && n.cols == 16) || (n.rows == 32 && n.cols == 32)
         || (n.rows == 64 && n.cols == 64) || (n.rows == 128 && n.cols == 128) {
        if transposeSize.rows == 0 && transposeSize.cols == 0 {
          assert r.events == [ProgramInit(n)];
          transposeSize := n;
          FirstProgram(rt, transposeSize, dataPath);
          changes := changes + r.events;
        } else if transposeSize.rows == n.rows && transposeSize.cols == n.cols {
          assert r.events == [];
        } else {
          assert r.events == [ProgramCleanup, ProgramInit(n)];
          transposeSize := n;
          ReplaceProgram(rt, transposeSize, dataPath);
          changes := changes + r.events;
        }
        return 1;
      } else {
        return 0;
      }
    }
  }

  // ---------------------------------------------------------------------------
  // fpga_run

  /** buf_size: the 32-bit unsigned number of samples, N[0] * N[1] * iter. */
  function BufSize(n0: int, n1: int, iter: nat): (r: nat)
    ensures r < Pow32
  {
    Wrap32(n0 * n1 * iter)
  }

  /** The global size of the range launches, iter * N[0] * N[1] / 8, in 32-bit unsigned
      arithmetic. */
  function HostGlobalSize(n0: int, n1: int, iter: nat): nat
  {
    Wrap32(iter * n0 * n1) / 8
  }

  /** The work-group size of the transpose launch, the signed N[0] * N[1] / 8 with C's
      division; fetch and store use N[0]. */
  function HostTransposeLocal(n0: int, n1: int): int
  {
    TruncDiv(n0 * n1, 8)
  }

  /** `int iterations = iter`: the unsigned count read back as a 32-bit signed integer. */
  function ToInt32(u: nat): (r: int)
    requires u < Pow32
    ensures -0x8000_0000 <= r < 0x8000_0000
    ensures Wrap32(r) == u
    ensures u < 0x8000_0000 ==> r == u
  {
    if u < 0x8000_0000 then u else u - Pow32
  }

  /** The three kernels, the two buffers on channels 1 and 2, then queue_setup. */
  function RunSetup(bytes: int): seq<Event>
  {
    KernelCreates() + BufferCreates(bytes) + QueueCreates()
  }

  /** From the blocking write and its wait to the blocking read-back: fetch reads the input
      buffer, transpose receives the iteration count, store writes the output buffer, and
      the three kernels run as 1-D ranges on queues 1, 2 and 3. */
  function RunPipelineEvents(n0: int, n1: int, iter: nat, input: seq<Float2>): seq<Event>
    requires iter < Pow32
  {
    var bytes := SampleBytes * BufSize(n0, n1, iter);
    [WriteBuffer(Q1, InData, bytes, input), Finish(Q1)]
      + RunArgs(ToInt32(iter))
      + RunLaunches(n0, HostGlobalSize(n0, n1, iter), HostTransposeLocal(n0, n1))
      + [Finish(Q1), Finish(Q2), Finish(Q3), ReadBuffer(Q1, OutData, bytes)]
  }

  /** Fetch gets the input buffer, transpose the signed iteration count, store the output buffer. */
  function RunArgs(iterations: int): seq<Event>
  {
    [SetArg(FetchKernel, 0, MemArg(InData)), SetArg(TransposeKernel, 0, IntArg(iterations)),
     SetArg(StoreKernel, 0, MemArg(OutData))]
  }

  /** The three 1-D range launches, one kernel per queue. */
  function RunLaunches(n0: int, global: int, transposeLocal: int): seq<Event>
  {
    [LaunchRange(Q1, FetchKernel, global, n0),
     LaunchRange(Q2, TransposeKernel, global, transposeLocal),
     LaunchRange(Q3, StoreKernel, global, n0)]
  }

  /** The calls of one fpga_run, in program order. */
  function FpgaRunEvents(n0: int, n1: int, iter: nat, input: seq<Float2>): seq<Event>
    requires iter < Pow32
  {
    RunSetup(SampleBytes * BufSize(n0, n1, iter)) + RunPipelineEvents(n0, n1, iter, input) + CallCleanup()
  }

  lemma RunSetupAcquires(bytes: int)
    ensures Replay({}, RunSetup(bytes)) == Some(Pipeline)
  {
    var k, b, q := KernelCreates(), BufferCreates(bytes), QueueCreates();
    KernelsAcquire({});
    BuffersAcquire({} + Kernels, bytes);
    QueuesAcquire({} + Kernels + Buffers);
    assert {} + Kernels + Buffers + Queues == Pipeline;
    ReplayThen({}, k, {} + Kernels, b, {} + Kernels + Buffers);
    ReplayThen({}, k + b, {} + Kernels + Buffers, q, Pipeline);
  }

  /** Between setup and cleanup fpga_run only uses what it holds. */
  lemma RunPipelineKeeps(n0: int, n1: int, iter: nat, input: seq<Float2>)
    requires iter < Pow32
    ensures Replay(Pipeline, RunPipelineEvents(n0, n1, iter, input)) == Some(Pipeline)
  {
    var bytes := SampleBytes * BufSize(n0, n1, iter);
    var w := [WriteBuffer(Q1, InData, bytes, input), Finish(Q1)];
    var g := RunArgs(ToInt32(iter));
    var l := RunLaunches(n0, HostGlobalSize(n0, n1, iter), HostTransposeLocal(n0, n1));
    var d := [Finish(Q1), Finish(Q2), Finish(Q3), ReadBuffer(Q1, OutData, bytes)];
    ReplayUses(Pipeline, w);
    RunArgsKeep(ToInt32(iter));
    RunLaunchesKeep(n0, HostGlobalSize(n0, n1, iter), HostTransposeLocal(n0, n1));
    ReadBackKeeps(bytes);
    ReplayThen(Pipeline, w, Pipeline, g, Pipeline);
    ReplayThen(Pipeline, w + g, Pipeline, l, Pipeline);
    ReplayThen(Pipeline, w + g + l, Pipeline, d, Pipeline);
  }

  /** Setting the arguments only uses the kernels and buffers. */
  lemma RunArgsKeep(iterations: int)
    ensures Replay(Pipeline, RunArgs(iterations)) == Some(Pipeline)
  {
    ReplayUses(Pipeline, RunArgs(iterations));
  }

  /** The launches only use the kernels and queues. */
  lemma RunLaunchesKeep(n0: int, global: int, transposeLocal: int)
    ensures Replay(Pipeline, RunLaunches(n0, global, transposeLocal)) == Some(Pipeline)
  {
    ReplayUses(Pipeline, RunLaunches(n0, global, transposeLocal));
  }

  /** Every queue, buffer and kernel of fpga_run is created before it is used and released
      exactly once, and none outlives the call. */
  lemma FpgaRunDisciplined(n0: int, n1: int, iter: nat, input: seq<Float2>)
    requires iter < Pow32
    ensures Disciplined(FpgaRunEvents(n0, n1, iter, input))
  {
    var a := RunSetup(SampleBytes * BufSize(n0, n1, iter));
    var p, e := RunPipelineEvents(n0, n1, iter, input), CallCleanup();
    RunSetupAcquires(SampleBytes * BufSize(n0, n1, iter));
    RunPipelineKeeps(n0, n1, iter, input);
    CleanupReleases();
    ReplayThen({}, a, Pipeline, p, Pipeline);
    ReplayThen({}, a + p, Pipeline, e, {});
  }

  /** On the data path fpga_run writes the input on queue 1 and waits for it, runs fetch,
      transpose and store on queues 1, 2 and 3, waits for the three queues in order, and
      only then reads the result back on queue 1. */
  lemma FpgaRunDataPath(n0: int, n1: int, iter: nat, input: seq<Float2>)
    requires iter < Pow32
    ensures var bytes := SampleBytes * BufSize(n0, n1, iter);
      var global := HostGlobalSize(n0, n1, iter);
      DataPath(FpgaRunEvents(n0, n1, iter, input)) ==
        [WriteBuffer(Q1, InData, bytes, input), Finish(Q1),
         LaunchRange(Q1, FetchKernel, global, n0),
         LaunchRange(Q2, TransposeKernel, global, HostTransposeLocal(n0, n1)),
         LaunchRange(Q3, StoreKernel, global, n0),
         Finish(Q1), Finish(Q2), Finish(Q3), ReadBuffer(Q1, OutData, bytes)]
  {
    var a := RunSetup(SampleBytes * BufSize(n0, n1, iter));
    var p, e := RunPipelineEvents(n0, n1, iter, input), CallCleanup();
    DataPathNone(a);
    PipelineDataPath(n0, n1, iter, input);
    DataPathJoin(a, p, e);
    assert DataPath(a) + DataPath(p) == DataPath(p);
  }

  lemma PipelineDataPath(n0: int, n1: int, iter: nat, input: seq<Float2>)
    requires iter < Pow32
    ensures var bytes := SampleBytes * BufSize(n0, n1, iter);
      var global := HostGlobalSize(n0, n1, iter);
      DataPath(RunPipelineEvents(n0, n1, iter, input)) ==
        [WriteBuffer(Q1, InData, bytes, input), Finish(Q1),
         LaunchRange(Q1, FetchKernel, global, n0),
         LaunchRange(Q2, TransposeKernel, global, HostTransposeLocal(n0, n1)),
         LaunchRange(Q3, StoreKernel, global, n0),
         Finish(Q1), Finish(Q2), Finish(Q3), ReadBuffer(Q1, OutData, bytes)]
  {
    var bytes := SampleBytes * BufSize(n0, n1, iter);
    var w := [WriteBuffer(Q1, InData, bytes, input), Finish(Q1)];
    var g := RunArgs(ToInt32(iter));
    var l := RunLaunches(n0, HostGlobalSize(n0, n1, iter), HostTransposeLocal(n0, n1))
      + [Finish(Q1), Finish(Q2), Finish(Q3), ReadBuffer(Q1, OutData, bytes)];
    assert RunPipelineEvents(n0, n1, iter, input) == w + g + l;
    DataPathAll(w);
    DataPathNone(g);
    DataPathAll(l);
    DataPathConcat(w, g);
    DataPathConcat(w + g, l);
  }

  /** For a supported size whose samples fit in 32 bits, buf_size is the exact sample count,
      every range launch covers it with one work-item per 8 samples, fetch and store run
      groups of N[0] work-items, and the transpose kernel runs one group per matrix. */
  lemma HostGeometry(n0: int, n1: int, iter: nat)
    requires Supported(Dims(n0, n1)) && n0 * n1 * iter < Pow32
    ensures BufSize(n0, n1, iter) == n0 * n1 * iter
    ensures 8 * HostGlobalSize(n0, n1, iter) == BufSize(n0, n1, iter)
    ensures HostGlobalSize(n0, n1, iter) % n0 == 0
    ensures HostTransposeLocal(n0, n1) > 0 && HostGlobalSize(n0, n1, iter) % HostTransposeLocal(n0, n1) == 0
    ensures HostGlobalSize(n0, n1, iter) / HostTransposeLocal(n0, n1) == iter
  {
    SupportedShape(Dims(n0, n1));
    var n: nat := n0;
    var items := iter * n * n;
    assert n0 * n1 * iter == items && iter * n0 * n1 == items by {
      assert n0 == n && n1 == n;
    }
    assert BufSize(n0, n1, iter) == items;
    assert HostGlobalSize(n0, n1, iter) == items / 8;
    assert HostTransposeLocal(n0, n1) == n * n / 8;
    GroupGeometry(n, iter);
    EightDivides(n, iter);
  }

  lemma EightDivides(n: nat, count: nat)
    requires n % 8 == 0
    ensures 8 * (count * n * n / 8) == count * n * n
  {
    var m := n / 8;
    assert count * n * n == 8 * (count * m * n);
  }

  /** fpga_run: stages the first buf_size samples of `cIn` in a host buffer, sends them to
      the device, runs the pipeline and copies the samples read back, `deviceOut`, over the
      same positions of `cIn`; the rest of `cIn` is unchanged. The result is the pipeline
      time, from the clock readings `start` and `stop`. */
  method FpgaRun(rt: Runtime, n0: int, n1: int, cIn: array<Float2>, iter: nat,
                 start: real, stop: real, deviceOut: seq<Float2>)
    returns (runtime: real)
    requires iter < Pow32
    requires BufSize(n0, n1, iter) <= cIn.Length && |deviceOut| == BufSize(n0, n1, iter)
    modifies rt, cIn
    ensures runtime == stop - start
    ensures var m := BufSize(n0, n1, iter);
      && rt.trace == old(rt.trace) + FpgaRunEvents(n0, n1, iter, old(cIn[..m]))
      && cIn[..m] == deviceOut && cIn[m..] == old(cIn[m..])
    ensures rt.queue1 && rt.queue2 && rt.queue3
    ensures rt.platform == old(rt.platform) && rt.devices == old(rt.devices)
    ensures rt.context == old(rt.context) && rt.program == old(rt.program)
  {
    var bufSize := BufSize(n0, n1, iter);
    var cInBuf := new Float2[bufSize](i requires 0 <= i < bufSize reads cIn => cIn[i]);
    assert cInBuf[..] == cIn[..bufSize];
    OpenRun(rt, SampleBytes * bufSize);
    RunKernels(rt, n0, n1, iter, cInBuf[..]);
    runtime := stop - start;
    ReadInto(cInBuf, deviceOut);
    ReadInto(cIn, cInBuf[..]);
    CloseCall(rt);
  }

  /** From the blocking write of the input to the blocking read of the result. */
  method RunKernels(rt: Runtime, n0: int, n1: int, iter: nat, input: seq<Float2>)
    requires iter < Pow32
    modifies rt
    ensures rt.trace == old(rt.trace) + RunPipelineEvents(n0, n1, iter, input)
    ensures rt.queue1 == old(rt.queue1) && rt.queue2 == old(rt.queue2) && rt.queue3 == old(rt.queue3)
    ensures rt.platform == old(rt.platform) && rt.devices == old(rt.devices)
    ensures rt.context == old(rt.context) && rt.program == old(rt.program)
  {
    var bytes := SampleBytes * BufSize(n0, n1, iter);
    rt.Call(WriteBuffer(Q1, InData, bytes, input));
    rt.Call(Finish(Q1));
    SetRunArgs(rt, ToInt32(iter));
    LaunchRun(rt, n0, HostGlobalSize(n0, n1, iter), HostTransposeLocal(n0, n1));
    ghost var trace1 := rt.trace;
    rt.Call(Finish(Q1));
    rt.Call(Finish(Q2));
    rt.Call(Finish(Q3));
    rt.Call(ReadBuffer(Q1, OutData, bytes));
    assert rt.trace == trace1 + [Finish(Q1), Finish(Q2), Finish(Q3), ReadBuffer(Q1, OutData, bytes)];
  }

  /** The kernels, the buffers and queue_setup. */
  method OpenRun(rt: Runtime, bytes: int)
    modifies rt
    ensures rt.trace == old(rt.trace) + RunSetup(bytes)
    ensures rt.queue1 && rt.queue2 && rt.queue3
    ensures rt.platform == old(rt.platform) && rt.devices == old(rt.devices)
    ensures rt.context == old(rt.context) && rt.program == old(rt.program)
  {
    rt.Call(CreateKernel(FetchKernel));
    rt.Call(CreateKernel(TransposeKernel));
    rt.Call(CreateKernel(StoreKernel));
    rt.Call(CreateBuffer(InData, Channel1, bytes));
    rt.Call(CreateBuffer(OutData, Channel2, bytes));
    rt.QueueSetup();
  }

  method SetRunArgs(rt: Runtime, iterations: int)
    modifies rt
    ensures rt.trace == old(rt.trace) + RunArgs(iterations)
    ensures rt.queue1 == old(rt.queue1) && rt.queue2 == old(rt.queue2) && rt.queue3 == old(rt.queue3)
    ensures rt.platform == old(rt.platform) && rt.devices == old(rt.devices)
    ensures rt.context == old(rt.context) && rt.program == old(rt.program)
  {
    rt.Call(SetArg(FetchKernel, 0, MemArg(InData)));
    rt.Call(SetArg(TransposeKernel, 0, IntArg(iterations)));
    rt.Call(SetArg(StoreKernel, 0, MemArg(OutData)));
  }

  method LaunchRun(rt: Runtime, n0: int, global: int, transposeLocal: int)
    modifies rt
    ensures rt.trace == old(rt.trace) + RunLaunches(n0, global, transposeLocal)
    ensures rt.queue1 == old(rt.queue1) && rt.queue2 == old(rt.queue2) && rt.queue3 == old(rt.queue3)
    ensures rt.platform == old(rt.platform) && rt.devices == old(rt.devices)
    ensures rt.context == old(rt.context) && rt.program == old(rt.program)
  {
    rt.Call(LaunchRange(Q1, FetchKernel, global, n0));
    rt.Call(LaunchRange(Q2, TransposeKernel, global, transposeLocal));
    rt.Call(LaunchRange(Q3, StoreKernel, global, n0));
  }
}
