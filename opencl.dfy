/** The OpenCL host API as the two host programs use it. The calls themselves are
    outside the model: each one is an event appended to a ghost trace. The `Runtime`
    class holds the host program's static OpenCL globals; replaying a trace checks
    that per-call resources are created before use and released exactly once. */
module OpenCL {
  import opened Fpga

  /** The three command queues, one per pipeline stage. */
  datatype Queue = Q1 | Q2 | Q3

  /** The three kernels of the bitstream, created by the names "fetch", "transpose", "store". */
  datatype Kernel = FetchKernel | TransposeKernel | StoreKernel

  /** The two device buffers of one call. */
  datatype Buffer = InData | OutData

  /** A kernel argument: a device buffer or an integer. */
  datatype Arg = MemArg(buffer: Buffer) | IntArg(value: int)

  /** The memory-channel flags: CL_CHANNEL_1_INTELFPGA and CL_CHANNEL_2_INTELFPGA. */
  const Channel1: nat := 1
  const Channel2: nat := 2

  /** Bytes per complex sample, sizeof(float2). */
  const SampleBytes: nat := 8

  datatype Event =
    | CreateQueue(q: Queue)                                   // clCreateCommandQueue, profiling enabled
    | ReleaseQueue(q: Queue)                                  // clReleaseCommandQueue
    | CreateBuffer(b: Buffer, channel: nat, bytes: int)       // clCreateBuffer, read-write
    | ReleaseBuffer(b: Buffer)                                // clReleaseMemObject
    | CreateKernel(k: Kernel)                                 // clCreateKernel
    | ReleaseKernel(k: Kernel)                                // clReleaseKernel
    | SetArg(k: Kernel, index: nat, arg: Arg)                 // clSetKernelArg
    | WriteBuffer(q: Queue, b: Buffer, bytes: int, data: seq<Float2>)  // blocking clEnqueueWriteBuffer
    | ReadBuffer(q: Queue, b: Buffer, bytes: int)             // blocking clEnqueueReadBuffer
    | LaunchRange(q: Queue, k: Kernel, global: int, local: int)  // 1-D clEnqueueNDRangeKernel
    | LaunchTask(q: Queue, k: Kernel)                         // clEnqueueTask
    | Finish(q: Queue)                                        // clFinish
    | FindPlatform                                            // findPlatform
    | GetDevices                                              // getDevices
    | CreateContext                                           // clCreateContext
    | CreateProgram                                           // getProgramWithBinary
    | BuildProgram                                            // clBuildProgram
    | ReleaseProgram                                          // clReleaseProgram
    | ReleaseContext                                          // clReleaseContext
    | FreeDevices                                             // free(devices)

  /** A resource that lives for one orchestrated call. */
  datatype Resource = QueueRes(q: Queue) | BufferRes(b: Buffer) | KernelRes(k: Kernel)

  /** The effect of one event on the set of live per-call resources, or None when the
      event creates a live resource again, releases a dead one, or uses a dead one. */
  function Step(live: set<Resource>, e: Event): (r: Option<set<Resource>>)
    ensures r.Some? ==> r.value <= live + ResourcesOf(e)
  {
    match e
    case CreateQueue(q) => Acquire(live, QueueRes(q))
    case CreateBuffer(b, _, _) => Acquire(live, BufferRes(b))
    case CreateKernel(k) => Acquire(live, KernelRes(k))
    case ReleaseQueue(q) => Release(live, QueueRes(q))
    case ReleaseBuffer(b) => Release(live, BufferRes(b))
    case ReleaseKernel(k) => Release(live, KernelRes(k))
    case _ => if ResourcesOf(e) <= live then Some(live) else None
  }

  function Acquire(live: set<Resource>, x: Resource): Option<set<Resource>>
  {
    if x in live then None else Some(live + {x})
  }

  function Release(live: set<Resource>, x: Resource): Option<set<Resource>>
  {
    if x in live then Some(live - {x}) else None
  }

  /** The per-call resources an event names. */
  function ResourcesOf(e: Event): set<Resource>
  {
    match e
    case CreateQueue(q) => {QueueRes(q)}
    case ReleaseQueue(q) => {QueueRes(q)}
    case CreateBuffer(b, _, _) => {BufferRes(b)}
    case ReleaseBuffer(b) => {BufferRes(b)}
    case CreateKernel(k) => {KernelRes(k)}
    case ReleaseKernel(k) => {KernelRes(k)}
    case SetArg(k, _, arg) => {KernelRes(k)} + (if arg.MemArg? then {BufferRes(arg.buffer)} else {})
    case WriteBuffer(q, b, _, _) => {QueueRes(q), BufferRes(b)}
    case ReadBuffer(q, b, _) => {QueueRes(q), BufferRes(b)}
    case LaunchRange(q, k, _, _) => {QueueRes(q), KernelRes(k)}
    case LaunchTask(q, k) => {QueueRes(q), KernelRes(k)}
    case Finish(q) => {QueueRes(q)}
    case _ => {}
  }

  /** Replays a trace from a set of live resources. */
  function Replay(live: set<Resource>, t: seq<Event>): Option<set<Resource>>
    decreases |t|
  {
    if t == [] then Some(live)
    else match Step(live, t[0])
      case None => None
      case Some(l) => Replay(l, t[1..])
  }

  /** A trace is disciplined when, starting with nothing live, every resource is created
      before it is used, never created twice while live, released exactly once, and
      nothing is live at the end. */
  predicate Disciplined(t: seq<Event>)
  {
    Replay({}, t) == Some({})
  }

  /** Replaying a concatenation replays its parts in turn. */
  lemma {:induction false} ReplayConcat(live: set<Resource>, a: seq<Event>, b: seq<Event>)
    ensures Replay(live, a + b) ==
      match Replay(live, a)
      case None => None
      case Some(l) => Replay(l, b)
    decreases |a|
  {
    if a == [] {
      assert a + b == b;
    } else {
      assert (a + b)[0] == a[0];
      assert (a + b)[1..] == a[1..] + b;
      match Step(live, a[0])
      case None =>
      case Some(l) => ReplayConcat(l, a[1..], b);
    }
  }

  /** Two replayable parts replay one after the other. */
  lemma ReplayThen(l0: set<Resource>, a: seq<Event>, l1: set<Resource>, b: seq<Event>, l2: set<Resource>)
    requires Replay(l0, a) == Some(l1) && Replay(l1, b) == Some(l2)
    ensures Replay(l0, a + b) == Some(l2)
  {
    ReplayConcat(l0, a, b);
  }

  /** The events of a trace that move data or run the pipeline, in order. */
  function DataPath(t: seq<Event>): (r: seq<Event>)
    ensures |r| <= |t|
  {
    if t == [] then []
    else (if IsDataPath(t[0]) then [t[0]] else []) + DataPath(t[1..])
  }

  /** A trace without data-path events has an empty data path. */
  lemma {:induction false} DataPathNone(t: seq<Event>)
    requires forall i :: 0 <= i < |t| ==> !IsDataPath(t[i])
    ensures DataPath(t) == []
    decreases |t|
  {
    if t != [] {
      DataPathNone(t[1..]);
    }
  }

  /** A trace made only of data-path events is its own data path. */
  lemma {:induction false} DataPathAll(t: seq<Event>)
    requires forall i :: 0 <= i < |t| ==> IsDataPath(t[i])
    ensures DataPath(t) == t
    decreases |t|
  {
    if t != [] {
      DataPathAll(t[1..]);
      assert [t[0]] + t[1..] == t;
    }
  }

  predicate IsDataPath(e: Event)
  {
    e.WriteBuffer? || e.ReadBuffer? || e.LaunchRange? || e.LaunchTask? || e.Finish?
  }

  lemma {:induction false} DataPathConcat(a: seq<Event>, b: seq<Event>)
    ensures DataPath(a + b) == DataPath(a) + DataPath(b)
    decreases |a|
  {
    if a == [] {
      assert a + b == b;
    } else {
      var h := if IsDataPath(a[0]) then [a[0]] else [];
      assert (a + b)[0] == a[0];
      assert (a + b)[1..] == a[1..] + b;
      assert DataPath(a + b) == h + DataPath(a[1..] + b);
      DataPathConcat(a[1..], b);
      assert h + (DataPath(a[1..]) + DataPath(b)) == h + DataPath(a[1..]) + DataPath(b);
    }
  }

  /** A call sequence made of an opening part, a middle part and a closing part without
      data-path calls keeps the data-path calls of the first two parts. */
  lemma DataPathJoin(o: seq<Event>, p: seq<Event>, e: seq<Event>)
    requires forall i :: 0 <= i < |e| ==> !IsDataPath(e[i])
    ensures DataPath(o + p + e) == DataPath(o) + DataPath(p)
  {
    DataPathConcat(o, p);
    DataPathNone(e);
    DataPathConcat(o + p, e);
    assert DataPath(o + p) + [] == DataPath(o + p);
  }

  /** The static OpenCL globals of one host program, and the trace of calls made on them.
      A field is true when the global holds a non-NULL handle; releasing a handle does not
      reset the global, exactly as in the C code. */
  class Runtime {
    var platform: bool
    var devices: bool
    var context: bool
    var program: bool
    var queue1: bool
    var queue2: bool
    var queue3: bool
    ghost var trace: seq<Event>

    /** All globals start out NULL. */
    constructor ()
      ensures !platform && !devices && !context && !program
      ensures !queue1 && !queue2 && !queue3
      ensures trace == []
    {
      platform, devices, context, program := false, false, false, false;
      queue1, queue2, queue3 := false, false, false;
      trace := [];
    }

    /** Issues one call that does not change a global. */
    method Call(e: Event)
      modifies this
      ensures trace == old(trace) + [e]
      ensures platform == old(platform) && devices == old(devices)
      ensures context == old(context) && program == old(program)
      ensures queue1 == old(queue1) && queue2 == old(queue2) && queue3 == old(queue3)
    {
      trace := trace + [e];
    }

    /** queue_setup: creates the three command queues and stores them in the globals. */
    method QueueSetup()
      modifies this
      ensures trace == old(trace) + QueueCreates()
      ensures queue1 && queue2 && queue3
      ensures platform == old(platform) && devices == old(devices)
      ensures context == old(context) && program == old(program)
    {
      queue1 := true;
      trace := trace + [CreateQueue(Q1)];
      queue2 := true;
      trace := trace + [CreateQueue(Q2)];
      queue3 := true;
      trace := trace + [CreateQueue(Q3)];
    }

    /** queue_cleanup: releases every queue whose global is non-NULL, in order, and
        leaves the globals as they are. */
    method QueueCleanup()
      modifies this
      ensures trace == old(trace) + QueueReleases(queue1, queue2, queue3)
      ensures platform == old(platform) && devices == old(devices)
      ensures context == old(context) && program == old(program)
      ensures queue1 == old(queue1) && queue2 == old(queue2) && queue3 == old(queue3)
    {
      if queue1 {
        Call(ReleaseQueue(Q1));
      }
      if queue2 {
        Call(ReleaseQueue(Q2));
      }
      if queue3 {
        Call(ReleaseQueue(Q3));
      }
    }
  }

  /** The releases queue_cleanup issues for the given non-NULL globals. */
  function QueueReleases(q1: bool, q2: bool, q3: bool): (r: seq<Event>)
    ensures |r| <= 3
    ensures forall e :: e in r ==> e.ReleaseQueue?
  {
    (if q1 then [ReleaseQueue(Q1)] else []) +
    (if q2 then [ReleaseQueue(Q2)] else []) +
    (if q3 then [ReleaseQueue(Q3)] else [])
  }

  predicate IsCreate(e: Event)
  {
    e.CreateQueue? || e.CreateBuffer? || e.CreateKernel?
  }

  predicate IsRelease(e: Event)
  {
    e.ReleaseQueue? || e.ReleaseBuffer? || e.ReleaseKernel?
  }

  /** The resource an event creates or releases. */
  function Target(e: Event): Resource
    requires IsCreate(e) || IsRelease(e)
  {
    match e
    case CreateQueue(q) => QueueRes(q)
    case ReleaseQueue(q) => QueueRes(q)
    case CreateBuffer(b, _, _) => BufferRes(b)
    case ReleaseBuffer(b) => BufferRes(b)
    case CreateKernel(k) => KernelRes(k)
    case ReleaseKernel(k) => KernelRes(k)
  }

  /** The per-call resources a trace names. */
  function Named(t: seq<Event>): set<Resource>
    decreases |t|
  {
    if t == [] then {} else ResourcesOf(t[0]) + Named(t[1..])
  }

  /** Named unfolded at every suffix of a trace, so that it can be computed for a
      trace written out event by event. */
  lemma NamedSuffixes(t: seq<Event>)
    ensures forall i {:trigger Named(t[i..])} :: 0 <= i < |t| ==> Named(t[i..]) == ResourcesOf(t[i]) + Named(t[i + 1..])
    ensures Named(t[|t|..]) == {}
  {
    forall i | 0 <= i < |t|
      ensures Named(t[i..]) == ResourcesOf(t[i]) + Named(t[i + 1..])
    {
      assert t[i..][1..] == t[i + 1..];
    }
  }

  /** Distinct creations of resources that are not live make exactly those live. */
  lemma {:induction false} ReplayCreates(live: set<Resource>, t: seq<Event>)
    requires forall i :: 0 <= i < |t| ==> IsCreate(t[i]) && Target(t[i]) !in live
    requires forall i, j :: 0 <= i < j < |t| ==> Target(t[i]) != Target(t[j])
    ensures Replay(live, t) == Some(live + Named(t))
    decreases |t|
  {
    if t != [] {
      var x := Target(t[0]);
      assert Step(live, t[0]) == Some(live + {x});
      assert Named(t) == ResourcesOf(t[0]) + Named(t[1..]) == {x} + Named(t[1..]);
      ReplayCreates(live + {x}, t[1..]);
      assert Replay(live, t) == Replay(live + {x}, t[1..]);
      assert Replay(live + {x}, t[1..]) == Some(live + {x} + Named(t[1..]));
      assert live + {x} + Named(t[1..]) == live + Named(t);
    } else {
      assert live + Named(t) == live;
    }
  }

  /** Distinct releases of live resources make exactly those dead. */
  lemma {:induction false} ReplayReleases(live: set<Resource>, t: seq<Event>)
    requires forall i :: 0 <= i < |t| ==> IsRelease(t[i]) && Target(t[i]) in live
    requires forall i, j :: 0 <= i < j < |t| ==> Target(t[i]) != Target(t[j])
    ensures Replay(live, t) == Some(live - Named(t))
    decreases |t|
  {
    if t != [] {
      var x := Target(t[0]);
      assert Step(live, t[0]) == Some(live - {x});
      assert Named(t) == ResourcesOf(t[0]) + Named(t[1..]) == {x} + Named(t[1..]);
      ReplayReleases(live - {x}, t[1..]);
      assert Replay(live, t) == Replay(live - {x}, t[1..]);
      assert Replay(live - {x}, t[1..]) == Some(live - {x} - Named(t[1..]));
      assert live - {x} - Named(t[1..]) == live - Named(t);
    } else {
      assert live - Named(t) == live;
    }
  }

  /** Commands that only use live resources leave the live set as it is. */
  lemma {:induction false} ReplayUses(live: set<Resource>, t: seq<Event>)
    requires forall i :: 0 <= i < |t| ==> !IsCreate(t[i]) && !IsRelease(t[i]) && ResourcesOf(t[i]) <= live
    ensures Replay(live, t) == Some(live)
    decreases |t|
  {
    if t != [] {
      ReplayUses(live, t[1..]);
    }
  }

  // ---------------------------------------------------------------------------
  // Shared by both orchestrators

  /** The three command queues, the two device buffers and the three kernels of a call. */
  const Queues: set<Resource> := {QueueRes(Q1), QueueRes(Q2), QueueRes(Q3)}
  const Buffers: set<Resource> := {BufferRes(InData), BufferRes(OutData)}
  const Kernels: set<Resource> := {KernelRes(FetchKernel), KernelRes(TransposeKernel), KernelRes(StoreKernel)}

  /** The queues and buffers of a call. */
  const Channels: set<Resource> := Queues + Buffers

  /** Everything a call holds while its kernels run. */
  const Pipeline: set<Resource> := Channels + Kernels

  /** The releases of the program and the context whose globals are non-NULL, in that order. */
  function ProgramReleases(program: bool, context: bool): (r: seq<Event>)
    ensures (ReleaseProgram in r <==> program) && (ReleaseContext in r <==> context)
    ensures |r| <= 2
  {
    (if program then [ReleaseProgram] else []) + (if context then [ReleaseContext] else [])
  }

  /** queue_setup. */
  function QueueCreates(): seq<Event>
  {
    [CreateQueue(Q1), CreateQueue(Q2), CreateQueue(Q3)]
  }

  /** The input buffer on memory channel 1 and the output buffer on channel 2. */
  function BufferCreates(bytes: int): seq<Event>
  {
    [CreateBuffer(InData, Channel1, bytes), CreateBuffer(OutData, Channel2, bytes)]
  }

  /** The fetch, transpose and store kernels. */
  function KernelCreates(): seq<Event>
  {
    [CreateKernel(FetchKernel), CreateKernel(TransposeKernel), CreateKernel(StoreKernel)]
  }

  function BufferReleases(): seq<Event>
  {
    [ReleaseBuffer(InData), ReleaseBuffer(OutData)]
  }

  function KernelReleases(): seq<Event>
  {
    [ReleaseKernel(FetchKernel), ReleaseKernel(TransposeKernel), ReleaseKernel(StoreKernel)]
  }

  /** queue_cleanup with all three queues non-NULL, then the buffers, then the kernels. */
  function CallCleanup(): seq<Event>
  {
    QueueReleases(true, true, true) + BufferReleases() + KernelReleases()
  }

  /** Creating the queues while none is live adds exactly them. */
  lemma QueuesAcquire(live: set<Resource>)
    requires Queues !! live
    ensures Replay(live, QueueCreates()) == Some(live + Queues)
  {
    var t := QueueCreates();
    NamedSuffixes(t);
    assert t[0..] == t;
    assert Named(t) == Queues;
    ReplayCreates(live, t);
  }

  /** Creating the buffers while neither is live adds exactly them. */
  lemma BuffersAcquire(live: set<Resource>, bytes: int)
    requires Buffers !! live
    ensures Replay(live, BufferCreates(bytes)) == Some(live + Buffers)
  {
    var t := BufferCreates(bytes);
    NamedSuffixes(t);
    assert t[0..] == t;
    assert Named(t) == Buffers;
    ReplayCreates(live, t);
  }

  /** Creating the kernels while none is live adds exactly them. */
  lemma KernelsAcquire(live: set<Resource>)
    requires Kernels !! live
    ensures Replay(live, KernelCreates()) == Some(live + Kernels)
  {
    var t := KernelCreates();
    NamedSuffixes(t);
    assert t[0..] == t;
    assert Named(t) == Kernels;
    ReplayCreates(live, t);
  }

  /** Releasing the three live queues removes exactly them. */
  lemma QueuesRelease(live: set<Resource>)
    requires Queues <= live
    ensures Replay(live, QueueReleases(true, true, true)) == Some(live - Queues)
  {
    var t := QueueReleases(true, true, true);
    assert t == [ReleaseQueue(Q1), ReleaseQueue(Q2), ReleaseQueue(Q3)];
    NamedSuffixes(t);
    assert t[0..] == t;
    assert Named(t) == Queues;
    ReplayReleases(live, t);
  }

  /** Releasing the two live buffers removes exactly them. */
  lemma BuffersRelease(live: set<Resource>)
    requires Buffers <= live
    ensures Replay(live, BufferReleases()) == Some(live - Buffers)
  {
    var t := BufferReleases();
    NamedSuffixes(t);
    assert t[0..] == t;
    assert Named(t) == Buffers;
    ReplayReleases(live, t);
  }

  /** Releasing the three live kernels removes exactly them. */
  lemma KernelsRelease(live: set<Resource>)
    requires Kernels <= live
    ensures Replay(live, KernelReleases()) == Some(live - Kernels)
  {
    var t := KernelReleases();
    NamedSuffixes(t);
    assert t[0..] == t;
    assert Named(t) == Kernels;
    ReplayReleases(live, t);
  }

  /** The cleanup of a call releases everything the call holds, leaving nothing live. */
  lemma CleanupReleases()
    ensures Replay(Pipeline, CallCleanup()) == Some({})
  {
    var q, b, k := QueueReleases(true, true, true), BufferReleases(), KernelReleases();
    QueuesRelease(Pipeline);
    assert Pipeline - Queues == Buffers + Kernels;
    BuffersRelease(Buffers + Kernels);
    assert Buffers + Kernels - Buffers == Kernels;
    KernelsRelease(Kernels);
    assert Kernels - Kernels == {};
    ReplayThen(Pipeline, q, Buffers + Kernels, b, Kernels);
    ReplayThen(Pipeline, q + b, Kernels, k, {});
  }

  /** Waiting on the three queues and the blocking read of the output only use what the
      call holds. */
  lemma ReadBackKeeps(bytes: int)
    ensures Replay(Pipeline, [Finish(Q1), Finish(Q2), Finish(Q3), ReadBuffer(Q1, OutData, bytes)]) == Some(Pipeline)
  {
    ReplayUses(Pipeline, [Finish(Q1), Finish(Q2), Finish(Q3), ReadBuffer(Q1, OutData, bytes)]);
  }

  /** A trace extended by three parts in turn is extended by their concatenation. Kept as
      a lemma of its own: proved inside a method that also changes arrays, this step makes
      that method's proof several times more expensive. */
  lemma TraceAppend(t0: seq<Event>, a: seq<Event>, b: seq<Event>, c: seq<Event>)
    ensures t0 + a + b + c == t0 + (a + b + c)
  {
  }

  /** A blocking read into host memory: the data lands at the front of the array and
      the rest of the array is untouched. */
  method ReadInto(a: array<Float2>, data: seq<Float2>)
    requires |data| <= a.Length
    modifies a
    ensures a[..|data|] == data && a[|data|..] == old(a[|data|..])
  {
    forall i | 0 <= i < |data| {
      a[i] := data[i];
    }
  }

  /** queue_cleanup, then the two buffers and the three kernels, each non-NULL here. */
  method CloseCall(rt: Runtime)
    requires rt.queue1 && rt.queue2 && rt.queue3
    modifies rt
    ensures rt.trace == old(rt.trace) + CallCleanup()
    ensures rt.queue1 && rt.queue2 && rt.queue3
    ensures rt.platform == old(rt.platform) && rt.devices == old(rt.devices)
    ensures rt.context == old(rt.context) && rt.program == old(rt.program)
  {
    rt.QueueCleanup();
    rt.Call(ReleaseBuffer(InData));
    rt.Call(ReleaseBuffer(OutData));
    rt.Call(ReleaseKernel(FetchKernel));
    rt.Call(ReleaseKernel(TransposeKernel));
    rt.Call(ReleaseKernel(StoreKernel));
  }
}
