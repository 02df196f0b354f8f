/**
 The work one frame queues on its stream, and what executing it does
 (src/backend/cuda/cuda_backend.cpp, launch): a copy in, one launch per stage with the
 two device buffers trading places, a copy out into staging, and the done event.

 A copy in reads the host slot when it executes, not when it is queued.
 */
module Device {
  import opened Samples
  import opened Chains
  import opened Images
  import opened Oracle
  import opened FusionPlan
  import opened Kernels
  import opened FusionCorrect
  import opened Launches
  import opened Arguments
  import opened KernelKeys
  import opened Programs

  datatype DeviceOp =
    | CopyIn(slot: nat, bytes: nat)
    | RunKernel(kernel: Kernel, arguments: seq<Actual>, width: nat, height: nat, fromFront: bool)
    | CopyOut(bytes: nat, fromFront: bool)
    | RecordDone

  /** A stream's device pair and its pinned staging buffer. */
  datatype Buffers = Buffers(front: seq<Byte>, back: seq<Byte>, staging: seq<Byte>)

  predicate Sized(b: Buffers, bytes: nat) {
    |b.front| == bytes && |b.back| == bytes && |b.staging| == bytes
  }

  function Source(b: Buffers, fromFront: bool): seq<Byte> {
    if fromFront then b.front else b.back
  }

  function Destination(b: Buffers, fromFront: bool): seq<Byte> {
    if fromFront then b.back else b.front
  }

  /** What an operation needs so that it touches no byte it does not have. */
  ghost predicate InBounds(op: DeviceOp, host: seq<seq<Byte>>, b: Buffers) {
    match op
    case CopyIn(slot, bytes) => slot < |host| && bytes <= |host[slot]| && bytes <= |b.front|
    case RunKernel(k, _, width, height, _) =>
      k.blockDim > 0 && GoodDimensions(width, height, k.channels)
      && ByteCount(width, height, k.channels) <= |b.front| && ByteCount(width, height, k.channels) <= |b.back|
      && StaysInside(k, width, height)
    case CopyOut(bytes, fromFront) => bytes <= |Source(b, fromFront)| && bytes <= |b.staging|
    case RecordDone => true
  }

  ghost predicate Scheduled(op: DeviceOp, sched: Schedule) {
    op.RunKernel? ==> op.kernel.blockDim > 0 && ValidSchedule(op.kernel, op.width, op.height, sched)
  }

  /** One operation of a stream, executed. */
  function ExecOp(nm: Numerics, op: DeviceOp, host: seq<seq<Byte>>, b: Buffers, sched: Schedule): Buffers
    requires InBounds(op, host, b)
  {
    match op
    case CopyIn(slot, bytes) => b.(front := host[slot][..bytes] + b.front[bytes..])
    case RunKernel(k, arguments, width, height, fromFront) =>
      var img := View(Source(b, fromFront), width, height, k.channels);
      var out := RunThreads(nm, k, Bind(k.formals, arguments), img, sched, sched.order, Destination(b, fromFront));
      if fromFront then b.(back := out) else b.(front := out)
    case CopyOut(bytes, fromFront) => b.(staging := Source(b, fromFront)[..bytes] + b.staging[bytes..])
    case RecordDone => b
  }

  // ------------------------------------------------------------ a frame's operations

  /** One frame on a stream: its key, the cached kernels, its host slot and its size. */
  datatype Work = Work(key: KernelKey, kernels: seq<Kernel>, slot: nat, width: nat, height: nat)

  function WorkBytes(work: Work): nat
    requires work.key.channels >= 0
  {
    ByteCount(work.width, work.height, work.key.channels)
  }

  /** Every stage's argument positions exist in the frame's own chain. */
  predicate ArgumentsExist(work: Work) {
    work.key.channels >= 0 && forall s :: 0 <= s < |work.kernels| ==> InChain(work.kernels[s].paramOps, work.key.chain)
  }

  function StageOp(nm: Numerics, work: Work, s: nat): DeviceOp
    requires ArgumentsExist(work) && s < |work.kernels|
  {
    RunKernel(work.kernels[s], LaunchActuals(nm, work.key.chain, work.kernels[s].paramOps),
      work.width, work.height, s % 2 == 0)
  }

  /** Operation number j of the frame: copy in, the stages, copy out, done. */
  function WorkOp(nm: Numerics, work: Work, j: nat): DeviceOp
    requires ArgumentsExist(work)
  {
    if j == 0 then CopyIn(work.slot, WorkBytes(work))
    else if j <= |work.kernels| then StageOp(nm, work, j - 1)
    else if j == |work.kernels| + 1 then CopyOut(WorkBytes(work), |work.kernels| % 2 == 0)
    else RecordDone
  }

  function WorkOps(nm: Numerics, work: Work): (r: seq<DeviceOp>)
    requires ArgumentsExist(work)
    ensures |r| == |work.kernels| + 3
  {
    seq(|work.kernels| + 3, j requires 0 <= j < |work.kernels| + 3 => WorkOp(nm, work, j))
  }

  /** The launch loop: source and destination swap after every stage. */
  method Enqueue(nm: Numerics, work: Work) returns (queued: seq<DeviceOp>)
    requires ArgumentsExist(work)
    ensures queued == WorkOps(nm, work)
  {
    var fromFront := true;
    queued := [CopyIn(work.slot, WorkBytes(work))];
    for s := 0 to |work.kernels|
      invariant fromFront == (s % 2 == 0)
      invariant |queued| == s + 1
      invariant forall j :: 0 <= j <= s ==> queued[j] == WorkOp(nm, work, j)
    {
      var arguments := BuildArguments(nm, work.key.chain, work.kernels[s].paramOps);
      queued := queued + [RunKernel(work.kernels[s], arguments, work.width, work.height, fromFront)];
      assert queued[s + 1] == WorkOp(nm, work, s + 1);
      fromFront := !fromFront;
    }
    queued := queued + [CopyOut(WorkBytes(work), fromFront)];
    queued := queued + [RecordDone];
  }

  // ------------------------------------------------------------------- progress

  /**
   Work a launch can queue: a supported key and the program of that key. In parameterized
   mode every gaussian's weights fit the argument array.
   */
  ghost predicate GoodWork(nm: Numerics, work: Work) {
    && SupportedKey(work.key) && work.width > 0 && work.height > 0
    && EmitProgram(nm, work.key) == Some(work.kernels)
    && (work.key.constants == Parameterized ==> ChainTapsFit(work.key.chain))
  }

  /** All 32-bit arithmetic of the frame's launches is exact: positions, coordinates, neighbours. */
  predicate WorkFits(work: Work) {
    && work.key.channels >= 0 && WorkBytes(work) <= INT32_LIMIT
    && forall s :: 0 <= s < |work.kernels| && s < |Plan(work.key.chain)| ==> StageFits(work, s)
  }

  predicate StageFits(work: Work, s: nat)
    requires s < |work.kernels| && s < |Plan(work.key.chain)|
  {
    && work.kernels[s].blockDim > 0
    && AxisFits(work.width, work.kernels[s].blockDim, StageRadius(Plan(work.key.chain)[s]))
    && AxisFits(work.height, work.kernels[s].blockDim, StageRadius(Plan(work.key.chain)[s]))
  }

  /** Frames of this size and less run in exact 32-bit arithmetic, whatever the canonical chain and the tile. */
  const MAX_INDEXED_BYTES: nat := INT32_LIMIT - (MAX_TILE_SIZE - 1)

  /** A small enough frame of a canonical chain needs no more than 32-bit arithmetic. */
  lemma SmallWorkFits(nm: Numerics, work: Work)
    requires GoodWork(nm, work) && CanonicalChain(work.key.chain) && WorkBytes(work) <= MAX_INDEXED_BYTES
    ensures WorkFits(work)
  {
    ExtentsWithin(work.width, work.height, work.key.channels);
    forall s | 0 <= s < |work.kernels| && s < |Plan(work.key.chain)| ensures StageFits(work, s) {
      StageKernel(nm, work, s);
      SmallRadius(work.key.chain, s);
      PaddedBounds(work.width, work.kernels[s].blockDim);
      PaddedBounds(work.height, work.kernels[s].blockDim);
    }
  }

  lemma SmallRadius(chain: OpChain, s: nat)
    requires CanonicalChain(chain) && s < |Plan(chain)|
    ensures StageRadius(Plan(chain)[s]) <= 12
  {
    PlanFromChain(chain);
    var stage := Plan(chain)[s];
    assert StageFromChain(stage, chain);
    if stage.stencil.Some? {
      var g := stage.stencil.value;
      assert [g][0].index < |chain| && chain[g.index] == g.op;
      if g.op.kind == Gaussian {
        RadiusBound(g.op);
      }
    }
  }

  /** The emitted kernel of stage s, and what its arguments will mean. */
  lemma StageKernel(nm: Numerics, work: Work, s: nat)
    requires GoodWork(nm, work) && s < |work.kernels|
    ensures s < |Plan(work.key.chain)|
    ensures work.kernels[s].channels == work.key.channels && 0 < work.kernels[s].blockDim <= MAX_TILE_SIZE
    ensures WellFormedStage(Plan(work.key.chain)[s])
    ensures KernelOf(nm, Plan(work.key.chain)[s], work.kernels[s], work.key.constants == Parameterized, work.key.channels)
    ensures InChain(work.kernels[s].paramOps, work.key.chain)
    ensures work.key.constants == Parameterized ==>
              BindsStage(nm, Plan(work.key.chain)[s],
                Bind(work.kernels[s].formals, LaunchActuals(nm, work.key.chain, work.kernels[s].paramOps)))
  {
    var key := work.key;
    EmittedStage(nm, Plan(key.chain), key.channels, if key.tile == Tiled then key.tileSize else 0,
      key.constants == Parameterized, s);
    PlanKeepsChain(key.chain);
    PlanFromChain(key.chain);
    if key.constants == Parameterized {
      StageBound(nm, Plan(key.chain)[s], key.chain);
    }
  }

  /** Kernels name only operations that a chain of their key's length has. */
  lemma KernelsHaveArguments(nm: Numerics, own: KernelKey, work: Work)
    requires EmitProgram(nm, own) == Some(work.kernels) && |own.chain| == |work.key.chain| && work.key.channels == own.channels
    ensures ArgumentsExist(work)
  {
    PlanKeepsChain(own.chain);
    PlanFromChain(own.chain);
    forall s | 0 <= s < |work.kernels| ensures InChain(work.kernels[s].paramOps, work.key.chain) {
      EmittedStage(nm, Plan(own.chain), own.channels, if own.tile == Tiled then own.tileSize else 0,
        own.constants == Parameterized, s);
      StageSignature(Plan(own.chain)[s], own.chain);
    }
  }

  lemma GoodWorkHasArguments(nm: Numerics, work: Work)
    requires GoodWork(nm, work)
    ensures ArgumentsExist(work)
  {
    forall s | 0 <= s < |work.kernels| ensures InChain(work.kernels[s].paramOps, work.key.chain) {
      StageKernel(nm, work, s);
    }
  }

  /** The frame's image as received. */
  predicate IsFrame(work: Work, img: Image) {
    && WellFormed(img) && img.width == work.width && img.height == work.height && img.channels == work.key.channels
  }

  /** The images a frame passes through: goals[s] is the fold of the first s stages. */
  function Goals(nm: Numerics, chain: OpChain, img: Image): (r: seq<Image>)
    requires WellFormed(img)
    ensures |r| == |Plan(chain)| + 1
  {
    seq(|Plan(chain)| + 1, s requires 0 <= s <= |Plan(chain)| => ApplyChain(nm, img, StagePrefix(chain, s)))
  }

  lemma FirstGoal(nm: Numerics, chain: OpChain, img: Image)
    requires WellFormed(img)
    ensures Goals(nm, chain, img)[0] == img
  {
    assert Plan(chain)[..0] == [];
    assert StagePrefix(chain, 0) == [];
  }

  lemma NextGoal(nm: Numerics, chain: OpChain, img: Image, s: nat)
    requires WellFormed(img) && s < |Plan(chain)|
    ensures WellFormed(Goals(nm, chain, img)[s])
    ensures Goals(nm, chain, img)[s + 1] == ApplyChain(nm, Goals(nm, chain, img)[s], Ops(StageOps(Plan(chain)[s])))
  {
    StagePrefixes(chain, s);
    ApplyChainConcat(nm, img, StagePrefix(chain, s), Ops(StageOps(Plan(chain)[s])));
  }

  lemma GoalShape(nm: Numerics, chain: OpChain, img: Image, s: nat)
    requires WellFormed(img) && s <= |Plan(chain)|
    ensures var g := Goals(nm, chain, img)[s];
            WellFormed(g) && g.width == img.width && g.height == img.height && g.channels == img.channels
            && |g.pixels| == |img.pixels|
  {
  }

  lemma LastGoal(nm: Numerics, chain: OpChain, img: Image)
    requires WellFormed(img)
    ensures Goals(nm, chain, img)[|Plan(chain)|] == ApplyChain(nm, img, chain)
  {
    LastPrefix(chain);
  }

  predicate Holds(buffer: seq<Byte>, img: Image) {
    |img.pixels| <= |buffer| && buffer[..|img.pixels|] == img.pixels
  }

  /** After j operations: the current source holds the fold so far, then staging the result. */
  predicate Progress(goals: seq<Image>, j: nat, b: Buffers) {
    && (1 <= j <= |goals| ==> Holds(Source(b, (j - 1) % 2 == 0), goals[j - 1]))
    && (j > |goals| > 0 ==> Holds(b.staging, goals[|goals| - 1]))
  }

  /** Every operation of a frame stays inside buffers of at least the frame's size. */
  lemma WorkInBounds(nm: Numerics, work: Work, j: nat, host: seq<seq<Byte>>, b: Buffers, bytes: nat)
    requires GoodWork(nm, work) && WorkFits(work) && ArgumentsExist(work) && Sized(b, bytes) && WorkBytes(work) <= bytes
    requires work.slot < |host| && |host[work.slot]| == bytes
    ensures InBounds(WorkOp(nm, work, j), host, b)
  {
    if 1 <= j <= |work.kernels| {
      StageKernel(nm, work, j - 1);
      assert StageFits(work, j - 1);
      FittingStaysInside(work.kernels[j - 1], work.width, work.height);
    }
  }

  /** One launch moves the fold from one buffer to the other. */
  lemma LaunchMoves(nm: Numerics, stage: Stage, k: Kernel, parameterized: bool, arguments: seq<Actual>,
                    now: Image, next: Image, fromFront: bool, host: seq<seq<Byte>>, b: Buffers, sched: Schedule)
    requires WellFormed(now) && WellFormedStage(stage) && KernelOf(nm, stage, k, parameterized, now.channels)
    requires k.channels == now.channels && LaunchFits(k, StageRadius(stage), now.width, now.height)
    requires parameterized ==> BindsStage(nm, stage, Bind(k.formals, arguments))
    requires next == ApplyChain(nm, now, Ops(StageOps(stage)))
    requires Holds(Source(b, fromFront), now)
    requires InBounds(RunKernel(k, arguments, now.width, now.height, fromFront), host, b)
    requires Scheduled(RunKernel(k, arguments, now.width, now.height, fromFront), sched)
    ensures Holds(Source(ExecOp(nm, RunKernel(k, arguments, now.width, now.height, fromFront), host, b, sched), !fromFront), next)
  {
    assert View(Source(b, fromFront), now.width, now.height, k.channels) == now;
    StageLaunch(nm, stage, k, parameterized, Bind(k.formals, arguments), now, sched, Destination(b, fromFront));
  }

  /** The same step, as operation s + 1 of a frame whose stage s and goals are at hand. */
  lemma LaunchAdvances(nm: Numerics, work: Work, goals: seq<Image>, s: nat, stage: Stage, parameterized: bool,
                       host: seq<seq<Byte>>, b: Buffers, sched: Schedule)
    requires ArgumentsExist(work) && s < |work.kernels| && s + 1 < |goals|
    requires WellFormed(goals[s]) && goals[s].width == work.width && goals[s].height == work.height
    requires work.kernels[s].channels == goals[s].channels
    requires WellFormedStage(stage) && KernelOf(nm, stage, work.kernels[s], parameterized, goals[s].channels)
    requires LaunchFits(work.kernels[s], StageRadius(stage), work.width, work.height)
    requires parameterized ==>
               BindsStage(nm, stage, Bind(work.kernels[s].formals, LaunchActuals(nm, work.key.chain, work.kernels[s].paramOps)))
    requires goals[s + 1] == ApplyChain(nm, goals[s], Ops(StageOps(stage)))
    requires Progress(goals, s + 1, b)
    requires InBounds(StageOp(nm, work, s), host, b) && Scheduled(StageOp(nm, work, s), sched)
    ensures Progress(goals, s + 2, ExecOp(nm, StageOp(nm, work, s), host, b, sched))
  {
    var fromFront := s % 2 == 0;
    assert ((s + 1) % 2 == 0) == !fromFront;
    LaunchMoves(nm, stage, work.kernels[s], parameterized,
      LaunchActuals(nm, work.key.chain, work.kernels[s].paramOps), goals[s], goals[s + 1], fromFront, host, b, sched);
    NextSource(goals, s, ExecOp(nm, StageOp(nm, work, s), host, b, sched), fromFront);
  }

  lemma NextSource(goals: seq<Image>, s: nat, b: Buffers, fromFront: bool)
    requires s + 1 < |goals| && ((s + 1) % 2 == 0) == !fromFront && Holds(Source(b, !fromFront), goals[s + 1])
    ensures Progress(goals, s + 2, b)
  {
  }

  lemma CopyInAdvances(nm: Numerics, slot: nat, goals: seq<Image>, host: seq<seq<Byte>>, b: Buffers, sched: Schedule)
    requires |goals| > 0 && InBounds(CopyIn(slot, |goals[0].pixels|), host, b) && Holds(host[slot], goals[0])
    ensures Progress(goals, 1, ExecOp(nm, CopyIn(slot, |goals[0].pixels|), host, b, sched))
  {
  }

  lemma CopyOutAdvances(nm: Numerics, goals: seq<Image>, host: seq<seq<Byte>>, b: Buffers, sched: Schedule)
    requires |goals| > 0 && Progress(goals, |goals|, b)
    requires InBounds(CopyOut(|goals[|goals| - 1].pixels|, (|goals| - 1) % 2 == 0), host, b)
    ensures Progress(goals, |goals| + 1,
              ExecOp(nm, CopyOut(|goals[|goals| - 1].pixels|, (|goals| - 1) % 2 == 0), host, b, sched))
  {
  }

  /**
   Executing a frame's next operation carries its progress one further, whatever order
   the threads run in, provided the slot still holds the frame when the copy in runs.
   */
  lemma WorkAdvances(nm: Numerics, work: Work, img: Image, goals: seq<Image>, j: nat, host: seq<seq<Byte>>, b: Buffers,
                     sched: Schedule)
    requires GoodWork(nm, work) && WorkFits(work) && ArgumentsExist(work)
    requires IsFrame(work, img) && goals == Goals(nm, work.key.chain, img)
    requires j < |work.kernels| + 3 && Progress(goals, j, b)
    requires InBounds(WorkOp(nm, work, j), host, b) && Scheduled(WorkOp(nm, work, j), sched)
    requires j == 0 ==> Holds(host[work.slot], img)
    ensures Progress(goals, j + 1, ExecOp(nm, WorkOp(nm, work, j), host, b, sched))
  {
    assert |goals| == |work.kernels| + 1;
    if j == 0 {
      FirstGoal(nm, work.key.chain, img);
      CopyInAdvances(nm, work.slot, goals, host, b, sched);
    } else if j <= |work.kernels| {
      StageKernel(nm, work, j - 1);
      NextGoal(nm, work.key.chain, img, j - 1);
      GoalShape(nm, work.key.chain, img, j - 1);
      assert StageFits(work, j - 1);
      LaunchAdvances(nm, work, goals, j - 1, Plan(work.key.chain)[j - 1], work.key.constants == Parameterized,
        host, b, sched);
    } else if j == |work.kernels| + 1 {
      GoalShape(nm, work.key.chain, img, |work.kernels|);
      CopyOutAdvances(nm, goals, host, b, sched);
    }
  }

  lemma ExecKeepsSizes(nm: Numerics, op: DeviceOp, host: seq<seq<Byte>>, b: Buffers, sched: Schedule, bytes: nat)
    requires InBounds(op, host, b) && Sized(b, bytes)
    ensures Sized(ExecOp(nm, op, host, b, sched), bytes)
  {
  }

  // ------------------------------------------------------- one frame, start to end

  ghost function RunOne(nm: Numerics, op: DeviceOp, host: seq<seq<Byte>>, before: Option<Buffers>, sched: Schedule): Option<Buffers> {
    if before.None? || !InBounds(op, host, before.value) then None else Some(ExecOp(nm, op, host, before.value, sched))
  }

  /** A stream's operations run to the end, each launch under its own schedule. */
  ghost function RunOps(nm: Numerics, ops: seq<DeviceOp>, host: seq<seq<Byte>>, b: Buffers, scheds: seq<Schedule>): Option<Buffers>
    requires |ops| == |scheds|
  {
    if ops == [] then Some(b)
    else
      RunOne(nm, ops[|ops| - 1], host, RunOps(nm, ops[..|ops| - 1], host, b, scheds[..|ops| - 1]), scheds[|ops| - 1])
  }

  lemma RunsOn(nm: Numerics, ops: seq<DeviceOp>, j: nat, host: seq<seq<Byte>>, b: Buffers, scheds: seq<Schedule>)
    requires j < |ops| == |scheds|
    ensures RunOps(nm, ops[..j + 1], host, b, scheds[..j + 1])
            == RunOne(nm, ops[j], host, RunOps(nm, ops[..j], host, b, scheds[..j]), scheds[j])
  {
    assert ops[..j + 1][..j] == ops[..j] && scheds[..j + 1][..j] == scheds[..j];
  }

  ghost predicate AllScheduled(ops: seq<DeviceOp>, scheds: seq<Schedule>) {
    |ops| == |scheds| && forall i :: 0 <= i < |ops| ==> Scheduled(ops[i], scheds[i])
  }

  /** Each operation, run from where the ones before it left off, carries progress on. */
  ghost predicate EachAdvances(nm: Numerics, ops: seq<DeviceOp>, goals: seq<Image>, host: seq<seq<Byte>>,
                               scheds: seq<Schedule>, bytes: nat)
    requires |ops| == |scheds|
  {
    forall i, b {:trigger Progress(goals, i, b), Sized(b, bytes)} ::
      0 <= i < |ops| && Sized(b, bytes) && Progress(goals, i, b) ==>
        && InBounds(ops[i], host, b)
        && Sized(ExecOp(nm, ops[i], host, b, scheds[i]), bytes)
        && Progress(goals, i + 1, ExecOp(nm, ops[i], host, b, scheds[i]))
  }

  lemma {:induction false} OpsRun(nm: Numerics, ops: seq<DeviceOp>, goals: seq<Image>, j: nat, host: seq<seq<Byte>>,
                                  b: Buffers, scheds: seq<Schedule>, bytes: nat)
    requires |ops| == |scheds| && j <= |ops| && Sized(b, bytes)
    requires EachAdvances(nm, ops, goals, host, scheds, bytes)
    ensures var r := RunOps(nm, ops[..j], host, b, scheds[..j]);
            r.Some? && Sized(r.value, bytes) && Progress(goals, j, r.value)
    decreases j
  {
    if j > 0 {
      RunsOn(nm, ops, j - 1, host, b, scheds);
      OpsRun(nm, ops, goals, j - 1, host, b, scheds, bytes);
    }
  }

  lemma OneMore(nm: Numerics, work: Work, img: Image, goals: seq<Image>, j: nat, host: seq<seq<Byte>>,
                b: Buffers, sched: Schedule, bytes: nat)
    requires GoodWork(nm, work) && WorkFits(work) && ArgumentsExist(work)
    requires IsFrame(work, img) && goals == Goals(nm, work.key.chain, img)
    requires j < |work.kernels| + 3 && Sized(b, bytes) && WorkBytes(work) <= bytes
    requires work.slot < |host| && |host[work.slot]| == bytes && (j == 0 ==> Holds(host[work.slot], img))
    requires Scheduled(WorkOp(nm, work, j), sched) && Progress(goals, j, b)
    ensures InBounds(WorkOp(nm, work, j), host, b)
    ensures Sized(ExecOp(nm, WorkOp(nm, work, j), host, b, sched), bytes)
    ensures Progress(goals, j + 1, ExecOp(nm, WorkOp(nm, work, j), host, b, sched))
  {
    WorkInBounds(nm, work, j, host, b, bytes);
    WorkAdvances(nm, work, img, goals, j, host, b, sched);
    ExecKeepsSizes(nm, WorkOp(nm, work, j), host, b, sched, bytes);
  }

  /**
   The fusing compiler and its executor preserve meaning. For every chain, supported
   channel count, tile and constants mode, every image whose launches fit 32-bit arithmetic
   and every order of threads and tile loads, the operations a frame queues never leave
   their buffers and end with the left-to-right fold of the chain in staging, alpha
   included.
   */
  lemma FrameComputesChain(nm: Numerics, work: Work, img: Image, host: seq<seq<Byte>>, b: Buffers,
                           scheds: seq<Schedule>, bytes: nat)
    requires GoodWork(nm, work) && WorkFits(work) && ArgumentsExist(work) && IsFrame(work, img)
    requires Sized(b, bytes) && WorkBytes(work) <= bytes
    requires work.slot < |host| && |host[work.slot]| == bytes && Holds(host[work.slot], img)
    requires AllScheduled(WorkOps(nm, work), scheds)
    ensures var r := RunOps(nm, WorkOps(nm, work), host, b, scheds);
            r.Some? && Holds(r.value.staging, ApplyChain(nm, img, work.key.chain))
  {
    var ops, goals := WorkOps(nm, work), Goals(nm, work.key.chain, img);
    forall i, b | 0 <= i < |ops| && Sized(b, bytes) && Progress(goals, i, b)
      ensures InBounds(ops[i], host, b)
      ensures Sized(ExecOp(nm, ops[i], host, b, scheds[i]), bytes)
      ensures Progress(goals, i + 1, ExecOp(nm, ops[i], host, b, scheds[i]))
    {
      assert Scheduled(ops[i], scheds[i]);
      OneMore(nm, work, img, goals, i, host, b, scheds[i], bytes);
    }
    OpsRun(nm, ops, goals, |ops|, host, b, scheds, bytes);
    assert ops[..|ops|] == ops && scheds[..|ops|] == scheds;
    LastGoal(nm, work.key.chain, img);
  }
}
