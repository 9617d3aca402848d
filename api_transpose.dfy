/** The batched accelerator interface (api/src/transpose_fpga.c): host allocation,
    device initialisation and release, and the orchestrator mTranspose. */
module ApiTranspose {
  import opened Fpga
  import opened OpenCL
  import opened BlockIndex

  // ---------------------------------------------------------------------------
  // fpgaf_complex_malloc

  /** fpgaf_complex_malloc: shared virtual memory is not supported yet and a zero size
      allocates nothing; otherwise the result of the aligned allocator, `aligned`,
      is returned. A pointer is an address; None is NULL. */
  function ComplexMalloc(sz: nat, svm: int, aligned: Option<nat>): (r: Option<nat>)
    ensures svm == 1 ==> r == None
    ensures sz == 0 ==> r == None
    ensures svm != 1 && sz != 0 ==> r == aligned
    ensures r.Some? ==> svm != 1 && sz > 0
  {
    if svm == 1 then None
    else if sz == 0 then None
    else aligned
  }

  // ---------------------------------------------------------------------------
  // fpga_initialize and fpga_final

  /** The reasons fpga_initialize returns 1, in the order it checks them. */
  datatype InitFailure = MissingPath | NoPlatform | NoDevices | NoProgram

  /** The first failing check of fpga_initialize, or None when all pass. The path is
      None when the pointer is NULL. The outcomes of the platform lookup, the device
      query and the program load are inputs. */
  function InitCheck(path: Option<string>, platformFound: bool, devicesFound: bool, programLoaded: bool)
    : (r: Option<InitFailure>)
    ensures r == None <==> path.Some? && |path.value| > 0 && platformFound && devicesFound && programLoaded
    ensures (path == None || path == Some("")) ==> r == Some(MissingPath)
  {
    if path == None || |path.value| == 0 then Some(MissingPath)
    else if !platformFound then Some(NoPlatform)
    else if !devicesFound then Some(NoDevices)
    else if !programLoaded then Some(NoProgram)
    else None
  }

  /** The calls fpga_final makes for the given non-NULL globals. */
  function FinalEvents(program: bool, context: bool): (r: seq<Event>)
    ensures |r| > 0 && r[|r| - 1] == FreeDevices
    ensures (ReleaseProgram in r <==> program) && (ReleaseContext in r <==> context)
  {
    ProgramReleases(program, context) + [FreeDevices]
  }

  /** The calls fpga_initialize makes: every check stops the sequence where it fails;
      a program that fails to load runs fpga_final, which releases the new context. */
  function InitEvents(path: Option<string>, platformFound: bool, devicesFound: bool, programLoaded: bool)
    : seq<Event>
  {
    match InitCheck(path, platformFound, devicesFound, programLoaded)
    case Some(MissingPath) => []
    case Some(NoPlatform) => [FindPlatform]
    case Some(NoDevices) => [FindPlatform, GetDevices]
    case Some(NoProgram) => [FindPlatform, GetDevices, CreateContext, CreateProgram] + FinalEvents(false, true)
    case None => [FindPlatform, GetDevices, CreateContext, CreateProgram, BuildProgram]
  }

  /** The ladder of fpga_initialize: a missing path fails before any platform lookup,
      every failure returns 1 and makes no further call, and a context created on the way
      to a failure is released again. */
  lemma InitLadder(path: Option<string>, platformFound: bool, devicesFound: bool, programLoaded: bool)
    ensures var t := InitEvents(path, platformFound, devicesFound, programLoaded);
      && ((path == None || path == Some("")) ==> t == [])
      && (InitCheck(path, platformFound, devicesFound, programLoaded).Some? ==>
            BuildProgram !in t && (CreateContext in t <==> ReleaseContext in t))
      && (InitCheck(path, platformFound, devicesFound, programLoaded) == None ==>
            t[|t| - 1] == BuildProgram && ReleaseContext !in t)
      && (InitCheck(path, platformFound, devicesFound, programLoaded) == Some(NoProgram) ==>
            t[..4] == [FindPlatform, GetDevices, CreateContext, CreateProgram] && t[|t| - 1] == FreeDevices)
  {
    var t := InitEvents(path, platformFound, devicesFound, programLoaded);
    if InitCheck(path, platformFound, devicesFound, programLoaded) == Some(NoProgram) {
      assert t == [FindPlatform, GetDevices, CreateContext, CreateProgram, ReleaseContext, FreeDevices];
    }
  }

  /** fpga_initialize. Returns 0 on success and 1 on each failed check. Each check stores
      its handle in its global before testing it, so a failed lookup leaves that global
      NULL; a failed program load runs fpga_final, which releases the context but leaves
      the context global set. Failures of clCreateContext and clBuildProgram end the
      process and are not modelled. */
  method FpgaInitialize(rt: Runtime, platformName: string, path: Option<string>, useSvm: int, useEmulator: int,
                        platformFound: bool, devicesFound: bool, programLoaded: bool)
    returns (status: int)
    modifies rt
    ensures status == (if InitCheck(path, platformFound, devicesFound, programLoaded) == None then 0 else 1)
    ensures rt.trace == old(rt.trace) + InitEvents(path, platformFound, devicesFound, programLoaded)
    ensures var c := InitCheck(path, platformFound, devicesFound, programLoaded);
      && (c == Some(MissingPath) ==> rt.platform == old(rt.platform) && rt.devices == old(rt.devices))
      && (c != Some(MissingPath) ==> rt.platform == platformFound)
      && (c == Some(NoPlatform) ==> rt.devices == old(rt.devices))
      && (c == Some(NoDevices) || c == Some(NoProgram) || c == None ==> rt.devices == devicesFound)
      && (c == Some(MissingPath) || c == Some(NoPlatform) || c == Some(NoDevices) ==>
            rt.context == old(rt.context) && rt.program == old(rt.program))
      && (c == Some(NoProgram) ==> rt.context && !rt.program)
      && (c == None ==> rt.platform && rt.devices && rt.context && rt.program)
    ensures rt.queue1 == old(rt.queue1) && rt.queue2 == old(rt.queue2) && rt.queue3 == old(rt.queue3)
  {
    if path == None || |path.value| == 0 {
      return 1;
    }
    var found := FindDevices(rt, platformFound, devicesFound);
    if !found {
      return 1;
    }
    status := LoadProgram(rt, programLoaded);
  }

  /** The platform lookup, then, when a platform is found, the device query; each handle
      is stored in its global before it is tested. */
  method FindDevices(rt: Runtime, platformFound: bool, devicesFound: bool) returns (found: bool)
    modifies rt
    ensures found == (platformFound && devicesFound)
    ensures rt.trace == old(rt.trace) + (if platformFound then [FindPlatform, GetDevices] else [FindPlatform])
    ensures rt.platform == platformFound && rt.devices == (if platformFound then devicesFound else old(rt.devices))
    ensures rt.context == old(rt.context) && rt.program == old(rt.program)
    ensures rt.queue1 == old(rt.queue1) && rt.queue2 == old(rt.queue2) && rt.queue3 == old(rt.queue3)
  {
    rt.platform := platformFound;
    rt.Call(FindPlatform);
    if !rt.platform {
      return false;
    }
    rt.devices := devicesFound;
    rt.Call(GetDevices);
    return rt.devices;
  }

  /** The last steps of fpga_initialize: the context, the program from the bitstream file,
      and its build; a program that fails to load runs fpga_final. */
  method LoadProgram(rt: Runtime, programLoaded: bool) returns (status: int)
    modifies rt
    ensures status == (if programLoaded then 0 else 1)
    ensures rt.trace == old(rt.trace) + [CreateContext, CreateProgram] +
      (if programLoaded then [BuildProgram] else FinalEvents(false, true))
    ensures rt.context && rt.program == programLoaded
    ensures rt.platform == old(rt.platform) && rt.devices == old(rt.devices)
    ensures rt.queue1 == old(rt.queue1) && rt.queue2 == old(rt.queue2) && rt.queue3 == old(rt.queue3)
  {
    ghost var t0 := rt.trace;
    rt.context := true;
    rt.Call(CreateContext);
    rt.program := programLoaded;
    rt.Call(CreateProgram);
    ghost var t1 := rt.trace;
    assert t1 == t0 + [CreateContext, CreateProgram];
    if !rt.program {
      FpgaFinal(rt);
      assert rt.trace == t1 + FinalEvents(false, true);
      return 1;
    }
    rt.Call(BuildProgram);
    return 0;
  }

  /** fpga_final: releases the program and the context when their globals are non-NULL
      and frees the device list unconditionally. The globals keep their values, so a
      second call releases the same handles again. */
  method FpgaFinal(rt: Runtime)
    modifies rt
    ensures rt.trace == old(rt.trace) + FinalEvents(old(rt.program), old(rt.context))
    ensures rt.platform == old(rt.platform) && rt.devices == old(rt.devices)
    ensures rt.context == old(rt.context) && rt.program == old(rt.program)
    ensures rt.queue1 == old(rt.queue1) && rt.queue2 == old(rt.queue2) && rt.queue3 == old(rt.queue3)
  {
    if rt.program {
      rt.Call(ReleaseProgram);
    }
    if rt.context {
      rt.Call(ReleaseContext);
    }
    rt.Call(FreeDevices);
  }

  // ---------------------------------------------------------------------------
  // The power-of-two guard of mTranspose

  const Int32Min: int := -0x8000_0000
  const Int32Max: int := 0x7FFF_FFFF

  /** Bitwise AND of two non-negative integers, bit by bit from the lowest. */
  function BitAnd(a: nat, b: nat): (r: nat)
    ensures r <= a && r <= b
  {
    if a == 0 || b == 0 then 0
    else 2 * BitAnd(a / 2, b / 2) + (if a % 2 == 1 && b % 2 == 1 then 1 else 0)
  }

  predicate IsPowerOfTwo(x: nat)
  {
    x == 1 || (x > 1 && x % 2 == 0 && IsPowerOfTwo(x / 2))
  }

  /** The guard `(N & (N-1)) != 0` rejects, with N and N-1 as 32-bit two's-complement words. */
  predicate PassesGuard(n: int)
    requires Int32Min < n <= Int32Max
  {
    BitAnd(Wrap32(n), Wrap32(n - 1)) == 0
  }

  lemma {:induction false} AndSelf(m: nat)
    ensures BitAnd(m, m) == m
  {
    if m > 0 {
      AndSelf(m / 2);
    }
  }

  /** n & (n-1) clears the lowest set bit of n, so it is zero exactly for powers of two. */
  lemma {:induction false} AndPredecessor(n: nat)
    requires n >= 1
    ensures BitAnd(n, n - 1) == 0 <==> IsPowerOfTwo(n)
  {
    if n > 1 {
      var m := n / 2;
      if n % 2 == 0 {
        assert (n - 1) / 2 == m - 1 && (n - 1) % 2 == 1;
        AndPredecessor(m);
      } else {
        assert (n - 1) / 2 == m && (n - 1) % 2 == 0;
        AndSelf(m);
      }
    }
  }

  /** No power of two lies strictly between a power of two and its double. */
  lemma {:induction false} NoPowerBetween(x: nat, lo: nat)
    requires IsPowerOfTwo(lo) && lo < x < 2 * lo
    ensures !IsPowerOfTwo(x)
  {
    if lo > 1 && IsPowerOfTwo(x) {
      NoPowerBetween(x / 2, lo / 2);
    }
  }

  function Pow2(k: nat): (r: nat)
    ensures r >= 1
  {
    if k == 0 then 1 else 2 * Pow2(k - 1)
  }

  lemma {:induction false} Pow2IsPowerOfTwo(k: nat)
    ensures IsPowerOfTwo(Pow2(k))
  {
    if k > 0 {
      Pow2IsPowerOfTwo(k - 1);
    }
  }

  lemma {:induction false} Pow2Add(a: nat, b: nat)
    ensures Pow2(a + b) == Pow2(a) * Pow2(b)
  {
    if a > 0 {
      Pow2Add(a - 1, b);
    }
  }

  lemma SignBitIsPowerOfTwo()
    ensures IsPowerOfTwo(0x8000_0000)
  {
    Pow2Add(8, 8);
    Pow2Add(16, 8);
    Pow2Add(24, 7);
    assert Pow2(8) == 256 && Pow2(7) == 128;
    Pow2IsPowerOfTwo(31);
  }

  /** The guard of mTranspose admits exactly N = 0 and the positive powers of two. */
  lemma GuardAdmits(n: int)
    requires Int32Min < n <= Int32Max
    ensures PassesGuard(n) <==> n == 0 || (n > 0 && IsPowerOfTwo(n))
  {
    if n > 0 {
      AndPredecessor(n);
    } else if n < 0 {
      GuardRejectsNegative(n);
    }
  }

  /** A negative N is a word above the sign bit, never a power of two, so the guard
      rejects it. */
  lemma GuardRejectsNegative(n: int)
    requires Int32Min < n < 0
    ensures !PassesGuard(n)
  {
    var u := n + Pow32;
    WrapNegative(n);
    WrapNegative(n - 1);
    AndPredecessor(u);
    SignBitIsPowerOfTwo();
    NoPowerBetween(u, 0x8000_0000);
  }

  /** A negative 32-bit value wraps to itself plus 2^32. */
  lemma WrapNegative(x: int)
    requires -Pow32 <= x < 0
    ensures Wrap32(x) == x + Pow32
  {
    DivModUnique(x, Pow32, -1, x + Pow32);
  }

  // ---------------------------------------------------------------------------
  // mTranspose

  /** buf_sz: the bytes of a batch of N x N complex samples. */
  function BatchBytes(n: int, batch: nat): int
  {
    SampleBytes * batch * n * n
  }

  /** The global size of every range launch: one work-item per 8 samples. */
  function GlobalSize(n: int, batch: nat): int
  {
    batch * n * n / 8
  }

  /** The work-group size of the transpose range launch; fetch and store use N. */
  function TransposeLocal(n: int): int
  {
    n * n / 8
  }

  /** queue_setup followed by the two device buffers, on memory channels 1 and 2. */
  function CallSetup(bytes: int): seq<Event>
  {
    QueueCreates() + BufferCreates(bytes)
  }

  /** The kernel arguments: fetch reads the input buffer, store writes the output
      buffer, and all three kernels receive the batch count. */
  function KernelArgs(batch: int): seq<Event>
  {
    [SetArg(FetchKernel, 0, MemArg(InData)), SetArg(FetchKernel, 1, IntArg(batch)),
     SetArg(TransposeKernel, 0, IntArg(batch)),
     SetArg(StoreKernel, 0, MemArg(OutData)), SetArg(StoreKernel, 1, IntArg(batch))]
  }

  /** The three launches, one kernel per queue, as 1-D ranges or as single tasks. */
  function Launches(n: int, batch: nat, isND: bool): seq<Event>
  {
    if isND then
      [LaunchRange(Q1, FetchKernel, GlobalSize(n, batch), n),
       LaunchRange(Q2, TransposeKernel, GlobalSize(n, batch), TransposeLocal(n)),
       LaunchRange(Q3, StoreKernel, GlobalSize(n, batch), n)]
    else
      [LaunchTask(Q1, FetchKernel), LaunchTask(Q2, TransposeKernel), LaunchTask(Q3, StoreKernel)]
  }

  function Drain(): seq<Event>
  {
    [Finish(Q1), Finish(Q2), Finish(Q3)]
  }

  /** The calls of one accepted mTranspose, in program order. */
  function MTransposeEvents(n: int, batch: nat, isND: bool, input: seq<Float2>): seq<Event>
  {
    OpenEvents(BatchBytes(n, batch), input) + PipelineRun(n, batch, isND) + CallCleanup()
  }

  /** Setup, the blocking write of the input and the kernel creation. */
  function OpenEvents(bytes: int, input: seq<Float2>): seq<Event>
  {
    CallSetup(bytes) + [WriteBuffer(Q1, InData, bytes, input)] + KernelCreates()
  }

  /** From the kernel arguments to the read-back of the output. */
  function PipelineRun(n: int, batch: nat, isND: bool): seq<Event>
  {
    KernelArgs(batch) + Launches(n, batch, isND) + Drain() + [ReadBuffer(Q1, OutData, BatchBytes(n, batch))]
  }

  lemma SetupAcquires(bytes: int)
    ensures Replay({}, CallSetup(bytes)) == Some(Channels)
  {
    QueuesAcquire({});
    BuffersAcquire({} + Queues, bytes);
    assert {} + Queues + Buffers == Channels;
    ReplayThen({}, QueueCreates(), {} + Queues, BufferCreates(bytes), Channels);
  }

  lemma PipelineKeeps(n: int, batch: nat, isND: bool)
    ensures Replay(Pipeline, PipelineRun(n, batch, isND)) == Some(Pipeline)
  {
    var g, l, d := KernelArgs(batch), Launches(n, batch, isND), Drain();
    var r := [ReadBuffer(Q1, OutData, BatchBytes(n, batch))];
    ArgsKeep(batch);
    LaunchesKeep(n, batch, isND);
    ReadBackKeeps(BatchBytes(n, batch));
    assert d + r == [Finish(Q1), Finish(Q2), Finish(Q3), ReadBuffer(Q1, OutData, BatchBytes(n, batch))];
    assert g + l + d + r == (g + l) + (d + r);
    ReplayThen(Pipeline, g, Pipeline, l, Pipeline);
    ReplayThen(Pipeline, g + l, Pipeline, d + r, Pipeline);
  }

  /** Setting the kernel arguments only uses the kernels and buffers. */
  lemma ArgsKeep(batch: int)
    ensures Replay(Pipeline, KernelArgs(batch)) == Some(Pipeline)
  {
    ReplayUses(Pipeline, KernelArgs(batch));
  }

  /** The launches only use the kernels and queues. */
  lemma LaunchesKeep(n: int, batch: nat, isND: bool)
    ensures Replay(Pipeline, Launches(n, batch, isND)) == Some(Pipeline)
  {
    ReplayUses(Pipeline, Launches(n, batch, isND));
  }

  /** Every queue, buffer and kernel of a call is created before it is used and released
      exactly once, and none outlives the call. */
  lemma MTransposeDisciplined(n: int, batch: nat, isND: bool, input: seq<Float2>)
    ensures Disciplined(MTransposeEvents(n, batch, isND, input))
  {
    var bytes := BatchBytes(n, batch);
    var a, w, c := CallSetup(bytes), [WriteBuffer(Q1, InData, bytes, input)], KernelCreates();
    var p, e := PipelineRun(n, batch, isND), CallCleanup();
    SetupAcquires(bytes);
    ReplayUses(Channels, w);
    KernelsAcquire(Channels);
    PipelineKeeps(n, batch, isND);
    CleanupReleases();
    ReplayThen({}, a, Channels, w, Channels);
    ReplayThen({}, a + w, Channels, c, Pipeline);
    ReplayThen({}, a + w + c, Pipeline, p, Pipeline);
    ReplayThen({}, a + w + c + p, Pipeline, e, {});
  }

  /** On the data path a call writes the input on queue 1, runs fetch, transpose and
      store on queues 1, 2 and 3, waits for the three queues in order, and only then
      reads the output back on queue 1. */
  lemma MTransposeDataPath(n: int, batch: nat, isND: bool, input: seq<Float2>)
    ensures var bytes := BatchBytes(n, batch);
      DataPath(MTransposeEvents(n, batch, isND, input)) ==
        [WriteBuffer(Q1, InData, bytes, input)] + Launches(n, batch, isND)
          + [Finish(Q1), Finish(Q2), Finish(Q3), ReadBuffer(Q1, OutData, bytes)]
  {
    var bytes := BatchBytes(n, batch);
    var o := CallSetup(bytes) + [WriteBuffer(Q1, InData, bytes, input)] + KernelCreates();
    var p, e := PipelineRun(n, batch, isND), CallCleanup();
    OpenDataPath(bytes, input);
    PipelineDataPath(n, batch, isND);
    DataPathJoin(o, p, e);
  }

  lemma OpenDataPath(bytes: int, input: seq<Float2>)
    ensures DataPath(CallSetup(bytes) + [WriteBuffer(Q1, InData, bytes, input)] + KernelCreates())
      == [WriteBuffer(Q1, InData, bytes, input)]
  {
    var a, w, c := CallSetup(bytes), [WriteBuffer(Q1, InData, bytes, input)], KernelCreates();
    DataPathNone(a);
    DataPathAll(w);
    DataPathNone(c);
    DataPathConcat(a, w);
    DataPathConcat(a + w, c);
  }

  lemma PipelineDataPath(n: int, batch: nat, isND: bool)
    ensures DataPath(PipelineRun(n, batch, isND)) ==
      Launches(n, batch, isND) + [Finish(Q1), Finish(Q2), Finish(Q3), ReadBuffer(Q1, OutData, BatchBytes(n, batch))]
  {
    var g, l := KernelArgs(batch), Launches(n, batch, isND);
    var tail := l + [Finish(Q1), Finish(Q2), Finish(Q3), ReadBuffer(Q1, OutData, BatchBytes(n, batch))];
    assert PipelineRun(n, batch, isND) == g + tail;
    DataPathNone(g);
    DataPathAll(tail);
    DataPathConcat(g, tail);
  }

  /** For a supported size (a power of two N that is a multiple of 8) the range launches
      divide evenly: fetch and store run batch * N / 8 groups of N work-items, and the
      transpose kernel runs exactly one group of N * N / 8 work-items per matrix. */
  lemma RangeGeometry(n: nat, batch: nat)
    requires n > 0 && n % 8 == 0
    ensures GlobalSize(n, batch) % n == 0 && GlobalSize(n, batch) / n == batch * n / 8
    ensures TransposeLocal(n) > 0
    ensures GlobalSize(n, batch) % TransposeLocal(n) == 0 && GlobalSize(n, batch) / TransposeLocal(n) == batch
  {
    GroupGeometry(n, batch);
  }

  /** The timing record of an accepted call. The six clock readings are, in order: before
      and after the write, the start and end of the pipeline, before and after the read. */
  function CallTiming(c: Stamps): (r: Timing)
    ensures r.valid == 1
    ensures Monotone(c) ==> r.pcieReadMs >= 0.0 && r.pcieWriteMs >= 0.0 && r.execMs >= 0.0
    ensures r.pcieWriteMs + r.execMs + r.pcieReadMs <= c.t5 - c.t0 || !Monotone(c)
  {
    Timing(c.t5 - c.t4, c.t1 - c.t0, c.t3 - c.t2, 1)
  }

  /** mTranspose. A NULL pointer or an N that is neither zero nor a power of two returns the
      zero record with valid = 0 and makes no call. Otherwise the call runs the pipeline over
      batch * N * N samples and returns valid = 1: the device receives the first
      batch * N * N input samples, and the output array receives the samples read back from
      the device, `deviceOut`, with the rest of the array unchanged. The clock readings are
      the parameter `clock`. */
  method MTranspose(rt: Runtime, n: int, inp: array?<Float2>, out: array?<Float2>, batch: nat,
                    useSvm: int, isND: bool, clock: Stamps, deviceOut: seq<Float2>)
    returns (timing: Timing)
    requires Int32Min <= n <= Int32Max && (inp != null && out != null ==> Int32Min < n)
    requires inp != null && out != null && PassesGuard(n) ==>
      BatchBytes(n, batch) / 8 <= inp.Length && |deviceOut| == BatchBytes(n, batch) / 8 <= out.Length
    modifies rt, out
    ensures var accepted := inp != null && out != null && PassesGuard(n);
      && (!accepted ==>
            && timing == NoTiming && rt.trace == old(rt.trace)
            && (out != null ==> out[..] == old(out[..]))
            && rt.queue1 == old(rt.queue1) && rt.queue2 == old(rt.queue2) && rt.queue3 == old(rt.queue3))
      && (accepted ==>
            var m := BatchBytes(n, batch) / 8;
            && timing == CallTiming(clock)
            && rt.trace == old(rt.trace) + MTransposeEvents(n, batch, isND, old(inp[..m]))
            && out[..m] == deviceOut && out[m..] == old(out[m..])
            && rt.queue1 && rt.queue2 && rt.queue3)
    ensures rt.platform == old(rt.platform) && rt.devices == old(rt.devices)
    ensures rt.context == old(rt.context) && rt.program == old(rt.program)
  {
    if inp == null || out == null || !PassesGuard(n) {
      return NoTiming;
    }
    var bufSize := BatchBytes(n, batch);
    AcceptedCall(rt, n, inp, out, batch, isND, deviceOut, bufSize, bufSize / 8);
    timing := CallTiming(clock);
  }

  /** The OpenCL part of an accepted mTranspose: buffers, kernels, the run, the read-back
      of the device output into `out` and the cleanup. */
  method AcceptedCall(rt: Runtime, n: int, inp: array<Float2>, out: array<Float2>, batch: nat,
                      isND: bool, deviceOut: seq<Float2>, bufSize: int, m: nat)
    requires bufSize == BatchBytes(n, batch) && m == bufSize / 8
    requires m <= inp.Length && |deviceOut| == m <= out.Length
    modifies rt, out
    ensures rt.trace == old(rt.trace) + MTransposeEvents(n, batch, isND, old(inp[..m]))
    ensures out[..m] == deviceOut && out[m..] == old(out[m..])
    ensures rt.queue1 && rt.queue2 && rt.queue3
    ensures rt.platform == old(rt.platform) && rt.devices == old(rt.devices)
    ensures rt.context == old(rt.context) && rt.program == old(rt.program)
  {
    var input := inp[..m];
    ghost var t0 := rt.trace;
    OpenCall(rt, bufSize, input);
    RunPipeline(rt, n, batch, isND);
    ReadInto(out, deviceOut);
    CloseCall(rt);
    TraceAppend(t0, OpenEvents(bufSize, input), PipelineRun(n, batch, isND), CallCleanup());
  }

  /** queue_setup, the two buffers, the blocking write of the input and the three kernels. */
  method OpenCall(rt: Runtime, bufSize: int, input: seq<Float2>)
    modifies rt
    ensures rt.trace == old(rt.trace) + OpenEvents(bufSize, input)
    ensures rt.queue1 && rt.queue2 && rt.queue3
    ensures rt.platform == old(rt.platform) && rt.devices == old(rt.devices)
    ensures rt.context == old(rt.context) && rt.program == old(rt.program)
  {
    rt.QueueSetup();
    rt.Call(CreateBuffer(InData, Channel1, bufSize));
    rt.Call(CreateBuffer(OutData, Channel2, bufSize));
    rt.Call(WriteBuffer(Q1, InData, bufSize, input));
    rt.Call(CreateKernel(FetchKernel));
    rt.Call(CreateKernel(TransposeKernel));
    rt.Call(CreateKernel(StoreKernel));
  }

  /** The kernel arguments, the three launches, the waits and the blocking read-back. */
  method RunPipeline(rt: Runtime, n: int, batch: nat, isND: bool)
    modifies rt
    ensures rt.trace == old(rt.trace) + PipelineRun(n, batch, isND)
    ensures rt.queue1 == old(rt.queue1) && rt.queue2 == old(rt.queue2) && rt.queue3 == old(rt.queue3)
    ensures rt.platform == old(rt.platform) && rt.devices == old(rt.devices)
    ensures rt.context == old(rt.context) && rt.program == old(rt.program)
  {
    SetKernelArgs(rt, batch);
    Launch(rt, n, batch, isND);
    ghost var trace1 := rt.trace;
    rt.Call(Finish(Q1));
    rt.Call(Finish(Q2));
    rt.Call(Finish(Q3));
    rt.Call(ReadBuffer(Q1, OutData, BatchBytes(n, batch)));
    assert rt.trace == trace1 + Drain() + [ReadBuffer(Q1, OutData, BatchBytes(n, batch))];
  }

  method SetKernelArgs(rt: Runtime, batch: nat)
    modifies rt
    ensures rt.trace == old(rt.trace) + KernelArgs(batch)
    ensures rt.queue1 == old(rt.queue1) && rt.queue2 == old(rt.queue2) && rt.queue3 == old(rt.queue3)
    ensures rt.platform == old(rt.platform) && rt.devices == old(rt.devices)
    ensures rt.context == old(rt.context) && rt.program == old(rt.program)
  {
    rt.Call(SetArg(FetchKernel, 0, MemArg(InData)));
    rt.Call(SetArg(FetchKernel, 1, IntArg(batch)));
    rt.Call(SetArg(TransposeKernel, 0, IntArg(batch)));
    rt.Call(SetArg(StoreKernel, 0, MemArg(OutData)));
    rt.Call(SetArg(StoreKernel, 1, IntArg(batch)));
  }

  /** The launches: 1-D ranges of batch * N * N / 8 work-items when isND, tasks otherwise. */
  method Launch(rt: Runtime, n: int, batch: nat, isND: bool)
    modifies rt
    ensures rt.trace == old(rt.trace) + Launches(n, batch, isND)
    ensures rt.queue1 == old(rt.queue1) && rt.queue2 == old(rt.queue2) && rt.queue3 == old(rt.queue3)
    ensures rt.platform == old(rt.platform) && rt.devices == old(rt.devices)
    ensures rt.context == old(rt.context) && rt.program == old(rt.program)
  {
    if isND {
      var gws := batch * n * n / 8;
      rt.Call(LaunchRange(Q1, FetchKernel, gws, n));
      rt.Call(LaunchRange(Q2, TransposeKernel, gws, n * n / 8));
      rt.Call(LaunchRange(Q3, StoreKernel, gws, n));
    } else {
      rt.Call(LaunchTask(Q1, FetchKernel));
      rt.Call(LaunchTask(Q2, TransposeKernel));
      rt.Call(LaunchTask(Q3, StoreKernel));
    }
  }


}
