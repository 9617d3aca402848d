# MatrixTranspose-FPGA: a verified model of the host-side pipeline

MatrixTranspose-FPGA transposes batches of N x N single-precision complex matrices on an
Intel FPGA. An OpenCL bitstream holds three kernels: fetch, transpose and store. A C host
program drives them. The repository has two host front ends:

- the batched interface in `api/`: `mTranspose`, device initialisation, and a CPU
  reference transpose used to check results;
- the library interface in `host_api/`: a per-size cache of loaded bitstreams and
  `fpga_run`, which transposes in place in the caller's array.

This project models that host logic in Dafny and proves what it promises.

- **Reference transposes and input generators** (`api_helper.dfy`, `host_helper.dfy`).
  These are imperative methods over arrays, with the same loops and scratch buffers as
  the C code. Each is proved equal to a specification function in `block_index.dfy`:
  - `BlockTransposed` transposes each of the first `batch` row-major blocks and keeps
    the rest of the array;
  - `IndexFill` writes (i, i) at offset i of each of the first `count` blocks.

  Lemmas about these functions state the listed properties:
  - the exact element moves;
  - diagonal elements stay fixed;
  - the frame (what is left unchanged);
  - transposing twice gives the input back;
  - each block is a permutation of itself;
  - all generated blocks are equal;
  - filling twice is the same as filling once.
- **OpenCL protocol** (`opencl.dfy`). Every OpenCL call is an `Event` appended to the
  ghost trace of a `Runtime` object. `Runtime` holds a program's static globals (platform,
  devices, context, program, the three queues) as flags meaning "handle is non-NULL".
  `Replay` checks resource discipline for queues, buffers and kernels: each is created
  before use, never created twice while live, released exactly once, and nothing is live
  at the end. `DataPath` extracts the ordered writes, launches, waits and reads.
- **Batched interface** (`api_transpose.dfy`):
  - `fpgaf_complex_malloc`;
  - the error ladder of `fpga_initialize`, and `fpga_final`;
  - the `(N & (N-1))` guard, with N as a 32-bit two's-complement word;
  - the launch geometry;
  - `mTranspose` as a method whose trace is `MTransposeEvents`, proved disciplined and
    correctly ordered.
- **Bitstream cache** (`bitstream_cache.dfy`, plus the `Cache` class in
  `host_transpose.dfy`):
  - `fpga_check_bitstream_` as a step function over the cached size;
  - the invariant that the program on the device always matches the cached size;
  - counting of init and cleanup;
  - the A,A and A,B,A scenarios.
- **Library orchestrator** (`host_transpose.dfy`):
  - `init`, `cleanup`, `init_program` and `cleanup_program`;
  - `fpga_run`, with its 32-bit unsigned sizes, its geometry, its disciplined and ordered
    trace, and its in-place result.

Inputs and outcomes the program cannot see are method parameters:
- the clock readings (`Stamps`, and `start`/`stop`);
- the samples the device sends back (`deviceOut`);
- the outcomes of `findPlatform`, `getDevices` and `getProgramWithBinary`;
- the pointer `alignedMalloc` returns.

`float2` is a pair of reals.

Two details of the code that the model states as they are:
- `fpga_final` releases the program and the context whenever their globals are non-NULL
  and never resets them, so a second call releases the same handles again
  (`ApiTranspose.FpgaFinal`). After a failed program load, `fpga_initialize` runs
  `fpga_final` and returns with the released context still in its global
  (`ApiTranspose.FpgaInitialize`).
- The guard `(N & (N-1))` of `mTranspose` admits N = 0 as well as the positive powers of
  two (`ApiTranspose.GuardAdmits`), and `batch` is never checked.

## Model

| member | source | states |
|---|---|---|
| Fpga.TruncDiv | host_api/api/transpose_fpga.c:172 | C's signed division: the remainder is smaller than the divisor in size and never has the opposite sign of the dividend |
| Fpga.Wrap32 | host_api/api/transpose_fpga.c:114 | conversion to a 32-bit unsigned: the result is below 2^32, congruent to the input, and equal to it when it already fits |
| BlockIndex.TransposedAt | api/src/helper.c:55-62 | after the batched transpose, position (j, i) of block k holds what (i, j) of block k held, for every k < batch and i, j < N |
| BlockIndex.TransposedDiagonal | api/src/helper.c:58-59 | diagonal elements (i = j) are unchanged |
| BlockIndex.TransposedFrame | api/src/helper.c:64-67 | only the first batch*N*N elements can change; batch = 0 or N = 1 leaves the data unchanged |
| BlockIndex.TransposedTwice | api/src/helper.c:55-67 | transposing twice restores the input |
| BlockIndex.TransposedBlockPermutes | api/src/helper.c:55-62 | block k of the output is a permutation (same multiset) of block k of the input: no element crosses a block boundary |
| BlockIndex.InvolutionPermutes | api/src/helper.c:58-59 | a rearrangement by an index map that is its own inverse preserves the multiset of elements |
| BlockIndex.BlockSrcTwice | api/src/helper.c:58-59 | the in-block transpose map is its own inverse |
| BlockIndex.TransposedInBlock | api/src/helper.c:55-59 | block k lies inside the transposed prefix, and its offset p holds the input at the transposed offset of the same block |
| BlockIndex.BlockPermutes | api/src/helper.c:55-62 | any array that reads block k of the input along the in-block transpose map holds, in that block, a permutation of it |
| BlockIndex.StagedStep | api/src/helper.c:58-59 | copying source cell c to its transposed cell keeps every earlier copy and adds that one |
| BlockIndex.StagedComplete | api/src/helper.c:55-62 | once every cell of the first batch blocks is copied, the scratch buffer is the block-wise transpose |
| BlockIndex.CopyBack | api/src/helper.c:64-67 | after the copy-back loop the array is the target: the scratch buffer's elements first, and the old elements beyond the scratch length |
| BlockIndex.FillAt | api/src/helper.c:25-30 | after generation, offset i of block j holds (i, i), the same as offset i of block 0 |
| BlockIndex.FillFrame | api/src/helper.c:25-26 | only the first count*m elements are written; count = 0 writes nothing |
| BlockIndex.FillPrefixAgrees | api/src/helper.c:27-29 | two arrays filled alike agree on the generated prefix, whatever they held before |
| BlockIndex.FillIdempotent | host_api/common/helper.c:34-37 | filling again gives the same array |
| BlockIndex.GroupGeometry | api/src/transpose_fpga.c:192-199 | for N a positive multiple of 8, count*N*N/8 work-items split exactly into groups of N, count*N/8 of them, and into groups of N*N/8, one per matrix |
| ApiHelper.CpuMTranspose | api/src/helper.c:52-67 | the array afterwards is the block-wise transpose of its old contents (`BlockTransposed`) |
| ApiHelper.StageBlock | api/src/helper.c:56-61 | after the rows of block k, every cell of blocks 0..k sits at its transposed position in the scratch buffer |
| ApiHelper.StageRow | api/src/helper.c:57-60 | row i of block k is copied to column i of the same block, keeping the earlier copies |
| ApiHelper.GetInputData | api/src/helper.c:21-31 | both arrays afterwards are `IndexFill` of their old contents over iter blocks of N*N |
| HostHelper.ComputeMatrixTranspose | host_api/common/helper.c:55-72 | for a square size, the array afterwards is its old contents with the first matrix transposed and everything after it unchanged |
| HostHelper.StageRow | host_api/common/helper.c:60-63 | row i is copied to column i, keeping the earlier copies |
| HostHelper.GetInputData | host_api/common/helper.c:29-43 | both arrays have (i, i) at offsets 0..N0*N1-1 when iterations >= 1, the same for every count, and are untouched when iterations = 0 |
| OpenCL.Runtime.constructor | api/src/transpose_fpga.c:18-23 | all static handles start out NULL, with an empty call trace |
| OpenCL.Runtime.QueueSetup | api/src/transpose_fpga.c:267-276 | creates queues 1, 2 and 3 in this order and stores them in the globals |
| OpenCL.Runtime.QueueCleanup | api/src/transpose_fpga.c:281-288 | releases, in order, each queue whose global is non-NULL, and leaves the globals as they are |
| OpenCL.QueueReleases | api/src/transpose_fpga.c:282-287 | queue cleanup issues at most three calls, all releases of queues |
| OpenCL.ProgramReleases | host_api/api/transpose_fpga.c:252-257 | the program is released iff its global is non-NULL, and likewise the context |
| OpenCL.CleanupReleases | api/src/transpose_fpga.c:244-258 | the shared release sequence (queues, buffers, kernels) frees exactly everything a call holds |
| OpenCL.CloseCall | api/src/transpose_fpga.c:244-258 | the trace grows by queue cleanup, then both buffer releases, then the three kernel releases |
| OpenCL.ReplayCreates | api/src/transpose_fpga.c:154-158 | distinct creations of resources that are not live make exactly those resources live |
| OpenCL.ReplayReleases | api/src/transpose_fpga.c:247-258 | distinct releases of live resources make exactly those resources dead |
| OpenCL.ReplayUses | api/src/transpose_fpga.c:163-238 | commands that only use live resources leave the live set unchanged |
| OpenCL.QueuesAcquire | api/src/transpose_fpga.c:267-276 | queue setup while no queue is live makes exactly the three queues live |
| OpenCL.BuffersAcquire | api/src/transpose_fpga.c:154-158 | the two buffer creations while neither buffer is live add exactly the two buffers |
| OpenCL.KernelsAcquire | api/src/transpose_fpga.c:169-174 | the three kernel creations while no kernel is live add exactly the three kernels |
| OpenCL.QueuesRelease | api/src/transpose_fpga.c:281-288 | queue cleanup with all three queues live removes exactly them |
| OpenCL.BuffersRelease | api/src/transpose_fpga.c:247-250 | the two buffer releases remove exactly the two live buffers |
| OpenCL.KernelsRelease | api/src/transpose_fpga.c:253-258 | the three kernel releases remove exactly the three live kernels |
| OpenCL.ReadInto | api/src/transpose_fpga.c:238 | a blocking read puts the device data at the front of the host array and leaves the rest of it unchanged |
| OpenCL.ReadBackKeeps | api/src/transpose_fpga.c:221-238 | finishing q1, q2, q3 and the blocking read-back only use live resources |
| ApiTranspose.ComplexMalloc | api/src/transpose_fpga.c:35-47 | NULL when svm = 1; NULL when sz = 0; otherwise exactly the aligned allocator's result |
| ApiTranspose.InitCheck | api/src/transpose_fpga.c:64-100 | initialisation succeeds iff the path is non-empty, the platform and devices are found and the program loads; a NULL or empty path fails first |
| ApiTranspose.InitLadder | api/src/transpose_fpga.c:64-109 | a missing path fails before any platform lookup; no failure builds the program; a context created on the way to a failure is released again; success ends with the build |
| ApiTranspose.FinalEvents | api/src/transpose_fpga.c:115-125 | finalisation releases the program iff it is non-NULL, the context iff it is non-NULL, and ends with freeing the device list |
| ApiTranspose.FpgaInitialize | api/src/transpose_fpga.c:57-110 | returns 0 exactly when every check passes and 1 otherwise; the calls made are those of the ladder; the globals after each outcome: a missing path touches none, a failed lookup leaves its global NULL, a failed load leaves the program NULL and the released context set, and success sets all four |
| ApiTranspose.FindDevices | api/src/transpose_fpga.c:71-82 | succeeds iff the platform and the devices are found; a missing platform stops before the device query; each handle lands in its global, NULL when not found |
| ApiTranspose.LoadProgram | api/src/transpose_fpga.c:87-109 | creates the context and the program; a loaded program is built and gives 0; a NULL program runs fpga_final, which releases the context, and gives 1 |
| ApiTranspose.FpgaFinal | api/src/transpose_fpga.c:115-125 | appends the releases of the non-NULL program and context and the free of the device list, and leaves every global as it was |
| ApiTranspose.AndSelf | api/src/transpose_fpga.c:143 | x & x = x |
| ApiTranspose.AndPredecessor | api/src/transpose_fpga.c:143 | for n >= 1, n & (n-1) = 0 iff n is a power of two |
| ApiTranspose.GuardAdmits | api/src/transpose_fpga.c:142-145 | for a 32-bit N (other than INT_MIN), the guard passes exactly for N = 0 and for positive powers of two; negative N is rejected |
| ApiTranspose.GuardRejectsNegative | api/src/transpose_fpga.c:143 | a negative N (other than INT_MIN) fails `(N & (N-1)) == 0` |
| ApiTranspose.WrapNegative | api/src/transpose_fpga.c:143 | a negative int, read as a 32-bit word, is itself plus 2^32 |
| ApiTranspose.RangeGeometry | api/src/transpose_fpga.c:191-205 | for N a positive multiple of 8, the fetch/store global size batch*N*N/8 is a multiple of the local size N, and the transpose global size is exactly batch work-groups of N*N/8 |
| ApiTranspose.SetupAcquires | api/src/transpose_fpga.c:147-158 | queue setup and the two buffer creations make the three queues and two buffers live |
| ApiTranspose.PipelineKeeps | api/src/transpose_fpga.c:177-238 | arguments, launches, waits and read-back only use live resources |
| ApiTranspose.ArgsKeep | api/src/transpose_fpga.c:177-188 | setting the kernel arguments only uses live kernels and buffers |
| ApiTranspose.LaunchesKeep | api/src/transpose_fpga.c:191-219 | the launches, ranges or tasks, only use live kernels and queues |
| ApiTranspose.MTransposeDisciplined | api/src/transpose_fpga.c:147-258 | the calls of an accepted mTranspose create each queue, buffer and kernel before use and release each exactly once, leaving nothing live |
| ApiTranspose.OpenDataPath | api/src/transpose_fpga.c:147-174 | set-up moves no data apart from the blocking write of the input |
| ApiTranspose.PipelineDataPath | api/src/transpose_fpga.c:177-238 | after the arguments: launches, then finish on queues 1, 2, 3, then the read-back on queue 1 |
| ApiTranspose.MTransposeDataPath | api/src/transpose_fpga.c:163-238 | data moves in the order: write the input on q1; launch fetch, transpose, store on q1, q2, q3; finish q1, q2, q3; read the output on q1 |
| ApiTranspose.CallTiming | api/src/transpose_fpga.c:161-165 | an accepted call reports valid = 1 and, for a monotonic clock, non-negative write, execution and read times whose sum is within the call's span |
| ApiTranspose.MTranspose | api/src/transpose_fpga.c:137-262 | a NULL pointer or a non-power-of-two N returns {0,0,0,0}, makes no call and leaves every global and the output unchanged; otherwise the trace grows by `MTransposeEvents` over the first batch*N*N input samples, the output receives exactly the samples read back, and valid = 1 |
| ApiTranspose.AcceptedCall | api/src/transpose_fpga.c:147-258 | for a call past the guard: the trace grows by `MTransposeEvents` over the first batch*N*N input samples, the output's first batch*N*N positions receive the samples read back, and the rest of the output is unchanged |
| ApiTranspose.OpenCall | api/src/transpose_fpga.c:147-174 | queue setup, then the buffers, then the write of the input on q1, then the three kernels |
| ApiTranspose.RunPipeline | api/src/transpose_fpga.c:177-238 | kernel arguments, launches, finishes 1-2-3, and the read-back of buf_sz bytes on q1 |
| ApiTranspose.SetKernelArgs | api/src/transpose_fpga.c:177-188 | fetch gets (d_inData, batch), transpose gets (batch), store gets (d_outData, batch) |
| ApiTranspose.Launch | api/src/transpose_fpga.c:191-219 | in ND mode, three 1-D ranges of batch*N*N/8 items with local sizes N, N*N/8, N on q1, q2, q3; otherwise one task per kernel on q1, q2, q3 |
| BitstreamCache.SupportedShape | host_api/api/transpose_fpga.c:60-64 | the supported sizes are exactly the square 8, 16, 32, 64 and 128; none of them is the initial (0, 0) |
| BitstreamCache.CheckStep | host_api/api/transpose_fpga.c:56-92 | returns 1 iff the size is supported; an unsupported size changes nothing; a supported size becomes the cache; the first one loads its program, the same one again does nothing, a different one cleans up and then loads |
| BitstreamCache.ApplyConcat | host_api/api/transpose_fpga.c:67-85 | replaying program changes in two parts is replaying them in one |
| BitstreamCache.StepInSync | host_api/api/transpose_fpga.c:67-85 | one call keeps the loaded program equal to the cached size, never loading over a loaded program or cleaning up an absent one |
| BitstreamCache.RunInSync | host_api/api/transpose_fpga.c:56-92 | the same for any sequence of calls |
| BitstreamCache.RunEndsAtLastAccepted | host_api/api/transpose_fpga.c:67-87 | after a sequence ending in an accepted call, the cache holds that call's size |
| BitstreamCache.ApplyCounts | host_api/api/transpose_fpga.c:67-85 | in a well-placed change sequence, inits plus the program loaded at the start equal cleanups plus the program loaded at the end |
| BitstreamCache.SessionCounts | host_api/api/transpose_fpga.c:67-85 | from the initial state, inits = cleanups + (1 if a program is loaded at the end) |
| BitstreamCache.SameSizeTwice | host_api/api/transpose_fpga.c:73-76 | requesting A, A loads A once and never cleans up |
| BitstreamCache.Alternating | host_api/api/transpose_fpga.c:77-85 | requesting A, B, A gives init A, cleanup, init B, cleanup, init A: 3 inits, 2 cleanups |
| HostTranspose.Init | host_api/api/transpose_fpga.c:263-277 | returns 1 after a failed platform lookup, without querying devices; otherwise queries the devices, unchecked, and returns 0 |
| HostTranspose.InitProgram | host_api/api/transpose_fpga.c:227-247 | given a non-NULL device list, creates the context, loads and builds the program, and sets both globals |
| HostTranspose.CleanupProgram | host_api/api/transpose_fpga.c:252-257 | releases the non-NULL program and context and leaves the globals as they are |
| HostTranspose.ProgramCallsInit | host_api/api/transpose_fpga.c:67-72 | loading the first program creates a context and a program and builds it |
| HostTranspose.ProgramCallsReplace | host_api/api/transpose_fpga.c:77-85 | replacing the program first releases the old program and context (those that are non-NULL), then creates and builds the new one |
| HostTranspose.FirstProgram | host_api/api/transpose_fpga.c:67-72 | the first supported request makes the OpenCL calls of a first load, and sets both globals |
| HostTranspose.ReplaceProgram | host_api/api/transpose_fpga.c:77-85 | a request for a new size makes the calls of cleanup_program then init_program, and sets both globals |
| HostTranspose.Cleanup | host_api/api/transpose_fpga.c:282-285 | cleanup_program, then frees the device list |
| HostTranspose.Cache.constructor | host_api/api/transpose_fpga.c:57 | the cache starts at (0, 0) with no program changes, which satisfies the invariant |
| HostTranspose.Cache.CheckBitstream | host_api/api/transpose_fpga.c:56-92 | return value, new cached size and program changes are those of `CheckStep`; the OpenCL calls carry out those changes; the loaded program stays equal to the cached size |
| HostTranspose.ToInt32 | host_api/api/transpose_fpga.c:115 | the iteration count, read as a signed 32-bit int: in range, the same bits, and the same value when it is below 2^31 |
| HostTranspose.BufSize | host_api/api/transpose_fpga.c:114 | buf_size is N0*N1*iter reduced to 32 bits |
| HostTranspose.RunSetupAcquires | host_api/api/transpose_fpga.c:132-146 | the kernels, buffers and queues created first are exactly everything the call holds |
| HostTranspose.RunPipelineKeeps | host_api/api/transpose_fpga.c:149-198 | between set-up and cleanup, fpga_run only uses live queues, buffers and kernels, and creates or releases none |
| HostTranspose.RunArgsKeep | host_api/api/transpose_fpga.c:154-159 | setting the three arguments only uses live kernels and buffers |
| HostTranspose.RunLaunchesKeep | host_api/api/transpose_fpga.c:166-184 | the three range launches only use live kernels and queues |
| HostTranspose.FpgaRunDisciplined | host_api/api/transpose_fpga.c:132-218 | the calls of fpga_run create each queue, buffer and kernel before use and release each exactly once |
| HostTranspose.PipelineDataPath | host_api/api/transpose_fpga.c:149-198 | write then finish q1; launches on q1, q2, q3; finish q1, q2, q3; read on q1 |
| HostTranspose.FpgaRunDataPath | host_api/api/transpose_fpga.c:149-198 | the whole call moves data in exactly that order |
| HostTranspose.HostGeometry | host_api/api/transpose_fpga.c:166-173 | for a supported size with no 32-bit wrap: buf_size is the exact sample count, 8 * global size = buf_size, fetch/store groups of N0 divide it, and the transpose runs exactly iter groups of N0*N1/8 |
| HostTranspose.FpgaRun | host_api/api/transpose_fpga.c:110-221 | returns stop - start; the trace grows by `FpgaRunEvents` over the first buf_size samples of c_in; those positions of c_in then hold the samples read back, and the rest is unchanged |
| HostTranspose.OpenRun | host_api/api/transpose_fpga.c:132-146 | kernels, then buffers on channels 1 and 2, then queue setup |
| HostTranspose.RunKernels | host_api/api/transpose_fpga.c:149-198 | the blocking write and its wait on q1; the arguments; the three launches; finish q1, q2, q3; the blocking read-back on q1 |
| HostTranspose.SetRunArgs | host_api/api/transpose_fpga.c:154-159 | fetch gets d_inData, transpose the signed iteration count, store d_outData |
| HostTranspose.LaunchRun | host_api/api/transpose_fpga.c:166-184 | three 1-D ranges on q1, q2, q3 with local sizes N0, N0*N1/8, N0 |

## Left out

- The semantics of the OpenCL calls and of `findPlatform`, `getDevices`,
  `getProgramWithBinary` and `alignedMalloc`. Their code is not part of this model. The
  calls are trace events, and their outcomes are parameters.
- `checkError`, and the `exit(1)` after an allocation or program-load failure. These end
  the process, so the model follows only the path on which every call succeeds.
- Timing. `getTimeinMilliSec` reads a monotonic clock in doubles, so its readings are
  parameters and the differences are taken in reals.
- `verify_mTranspose` and `verify_transpose`: floating-point sums, `log`, a threshold,
  and printing.
- `display_measures`, `print_config`, `compute_metrics`, both `main.c` files, and all
  `printf` output: these are command-line and report I/O.
- Floating point. `(float)i` is exact only up to 2^24; the model uses exact reals.
- The header prototypes with extra parameters (`iter`, `bitreverse`). The model follows
  the definitions.
- The unused host buffer `c_out_buf` in `fpga_run`. It is allocated and never freed;
  memory ownership is not modelled.
- `ApiTranspose.MTranspose`: `batch` is a natural number. The C `int batch` could be
  negative, which would make `buf_sz` wrap modulo 2^64. That case is not modelled, and
  neither is signed overflow of `batch * N * N` in the global size.
- `ApiTranspose.GuardAdmits`: N = INT_MIN is excluded, because `N-1` overflows there
  (undefined behaviour).
- `ApiTranspose.MTranspose`: N = INT_MIN is excluded when both pointers are non-NULL,
  because the guard then computes `N-1`, which overflows. With a NULL pointer the test
  stops first, and the model accepts that call and rejects it as the code does.
- `ApiHelper.GetInputData`: the unsigned 32-bit products `N * N` (the inner loop bound)
  and `j * N * N` (the offset) are taken as exact. A matrix of 2^32 or more samples is not
  modelled.
- `HostHelper.GetInputData`: the loop bound `N[0] * N[1]` is a product of unsigned 32-bit
  values and is taken as exact, and so is the counter `i`. For sizes whose product reaches
  2^32 the code wraps, and the model does not capture that case.
- `ApiHelper.CpuMTranspose`: the copy-back bound `batch * N * N` is an unsigned 32-bit
  product and is taken as exact. When it wraps, the code copies back only the wrapped
  count, and the model does not capture that case.
- `HostTranspose.InitProgram`: requires a non-NULL device list, and so do `FirstProgram`,
  `ReplaceProgram` and, for a request that loads a program, `Cache.CheckBitstream`. `init`
  does not check `getDevices`, and `init_program` reads `devices[0]`, which is undefined
  for a NULL list. That path is not modelled.
- `HostTranspose.FpgaRun`: sizes are `int` and negative ones are not interpreted. The
  local sizes N[0] and N[0] * N[1] / 8, the latter with C's truncating division
  (`Fpga.TruncDiv`), are recorded as signed values rather than converted to `size_t`. The signed product
  `N[0] * N[1]` is assumed not to overflow before the unsigned wrap.
- `HostHelper.ComputeMatrixTranspose`: requires N[0] = N[1]. Both strides use N[1], so
  other sizes are not a transpose; only square sizes are accepted by the cache.
- The `device = devices[0]` selection and the `use_svm`/`use_emulator` flags of
  `fpga_initialize`. The flags are unused in the code.
- The contents the device computes. The kernels are not part of this model, so the
  samples read back are a parameter.
- Failure of `clCreateCommandQueue` inside queue setup. Setup always sets the three queue
  globals, so queue cleanup releases all three.
