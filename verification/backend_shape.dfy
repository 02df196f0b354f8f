/**
 What holds of the backend whatever chains it is given: buffers have the configured size,
 a busy stream's frame fits them, and every kernel in the cache is its own key's program.
 */
module BackendShapes {
  import opened Images
  import opened Chains
  import opened Oracle
  import opened KernelKeys
  import opened KernelCaches
  import opened Launches
  import opened Device
  import opened Backends

  /** A stream's buffers, and the frame on it, fit together. */
  predicate StreamShape(config: Config, s: Stream) {
    && Sized(s.buffers, config.slotBytes)
    && (s.running.Some? ==>
          var work := s.running.value.work;
          && GoodDimensions(work.width, work.height, work.key.channels)
          && ArgumentsExist(work) && WorkBytes(work) <= config.slotBytes)
  }

  ghost predicate ShapeInv(nm: Numerics, b: Backend) {
    && ConfigInv(b.config) && OwnPrograms(nm, b.cache.entries)
    && forall i :: 0 <= i < |b.streams| ==> StreamShape(b.config, b.streams[i])
  }

  lemma ExecuteKeepsShape(nm: Numerics, config: Config, s: Stream, host: Host, sched: Schedule)
    requires StreamShape(config, s) && s.pending != [] && InBounds(s.pending[0], host, s.buffers)
    requires Scheduled(s.pending[0], sched)
    ensures StreamShape(config, ExecuteHead(nm, s, host, sched))
  {
    ExecKeepsSizes(nm, s.pending[0], host, s.buffers, sched, config.slotBytes);
  }

  lemma OccupyKeepsShape(nm: Numerics, b: Backend, i: nat, work: Work)
    requires ShapeInv(nm, b) && Enabled(b, Occupy(i, work))
    ensures ShapeInv(nm, Apply(nm, b, Occupy(i, work)))
  {
    assert StreamShape(b.config, b.streams[i]);
  }

  lemma FaultKeepsShape(nm: Numerics, b: Backend, scratch: seq<Buffers>)
    requires ShapeInv(nm, b) && Enabled(b, Fault(scratch))
    ensures ShapeInv(nm, Apply(nm, b, Fault(scratch)))
  {
    var e := Apply(nm, b, Fault(scratch));
    forall i | 0 <= i < |e.streams| ensures StreamShape(e.config, e.streams[i]) {
      assert StreamShape(b.config, b.streams[i]);
    }
  }

  lemma FreeKeepsShape(nm: Numerics, b: Backend, h: nat, i: nat, output: Option<Image>)
    requires ShapeInv(nm, b) && i < |b.streams| && 1 <= h <= |b.fates|
    ensures ShapeInv(nm, FreeStream(Complete(b, h, output), i))
  {
    assert StreamShape(b.config, b.streams[i]);
  }

  /** Every step keeps it, whichever chains are submitted. */
  lemma StepKeepsShape(nm: Numerics, b: Backend, step: BackendStep)
    requires ShapeInv(nm, b) && Enabled(b, step)
    ensures ShapeInv(nm, Apply(nm, b, step))
  {
    match step
    case FetchKernels(reply) => GetFindsEqual(nm, b.cache, LaunchKey(b), reply);
    case Occupy(i, work) => OccupyKeepsShape(nm, b, i, work);
    case Execute(i, host, sched) => ExecuteKeepsShape(nm, b.config, b.streams[i], host, sched);
    case RetireStream(i) =>
      var running := b.streams[i].running.value;
      FreeKeepsShape(nm, b, running.handle, i, Some(StagedImage(running.work, b.streams[i].buffers.staging)));
    case FailStream(i) => FreeKeepsShape(nm, b, b.streams[i].running.value.handle, i, None);
    case Fault(scratch) => FaultKeepsShape(nm, b, scratch);
    case _ =>
  }

  lemma InitialShape(nm: Numerics, b: Backend)
    requires Initial(b)
    ensures ShapeInv(nm, b)
  {
  }

  /** What a launch was given for its key has arguments in the frame's own chain. */
  lemma FoundHasArguments(nm: Numerics, work: Work)
    requires KernelsFor(nm, work.key, work.kernels)
    ensures ArgumentsExist(work)
  {
    var own: KernelKey :| KeyEq(own, work.key) && EmitProgram(nm, own) == Some(work.kernels);
    KernelsHaveArguments(nm, own, work);
  }
}
