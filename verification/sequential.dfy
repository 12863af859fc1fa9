/** The sequential model builder (`Sequential`): the layer list, the two graphs `compile`
    assembles from it, the training iteration counts, and the scoring of `evaluateTestSet`.
    Submission to the device is sequential here; the double-buffering semaphore and completion
    handlers are left out. */
module SequentialModel {
  import opened Wrappers
  import opened Tensors
  import opened Datasets
  import opened DataSources
  import opened Layers

  datatype LossLayer = MSE

  /** A built graph: its nodes in order, each fed by the one before it. */
  datatype Graph = Graph(nodes: seq<Node>)

  const DefaultEpochs := 1
  const DefaultBatchSize := 40

  /** Iterations `train(dataset:epoch:batchSize:)` runs, and those `trainEpoch` runs. */
  const TrainingIterations := 300
  const EpochIterations := 0

  /** Starting maximum of the evaluation argmax. */
  const ArgmaxFloor: real := -100.0

  /** `Sequential`: whether `MTLCreateSystemDefaultDevice()` and `makeCommandQueue()` produced a
      value, the two configuration fields, the layer list, and the compiled graphs. */
  datatype Sequential = Sequential(
    hasDevice: bool,
    hasCommandQueue: bool,
    epochs: int,
    batchSize: int,
    layers: seq<Layer>,
    trainingGraph: Option<Graph>,
    inferenceGraph: Option<Graph>)

  /** `init()`: the queue is made from the device, so there is no queue without a device. */
  function New(deviceAvailable: bool, queueCreated: bool): (s: Sequential)
    ensures s.hasCommandQueue ==> s.hasDevice
    ensures s.hasDevice == deviceAvailable && s.hasCommandQueue == (deviceAvailable && queueCreated)
    ensures s.epochs == DefaultEpochs && s.batchSize == DefaultBatchSize
    ensures s.layers == [] && s.trainingGraph == None && s.inferenceGraph == None
  {
    Sequential(deviceAvailable, deviceAvailable && queueCreated, DefaultEpochs, DefaultBatchSize, [], None, None)
  }

  /** `init(layers:)`: `init()` with the given layer list. */
  function WithLayers(deviceAvailable: bool, queueCreated: bool, layers: seq<Layer>): (s: Sequential)
    ensures s.layers == layers
    ensures s.hasDevice == deviceAvailable && s.hasCommandQueue == (deviceAvailable && queueCreated)
    ensures s.epochs == DefaultEpochs && s.batchSize == DefaultBatchSize
    ensures s.trainingGraph == None && s.inferenceGraph == None
  {
    New(deviceAvailable, queueCreated).(layers := layers)
  }

  /** `add(layer:)`: the new layer goes last; earlier layers keep their order; nothing else changes. */
  function Add(s: Sequential, layer: Layer): (r: Sequential)
    ensures |r.layers| == |s.layers| + 1
    ensures r.layers[..|s.layers|] == s.layers && r.layers[|s.layers|] == layer
    ensures r.(layers := s.layers) == s
  {
    s.(layers := s.layers + [layer])
  }

  ghost predicate AllBuildable(layers: seq<Layer>) {
    forall i :: 0 <= i < |layers| ==> layers[i].Buildable()
  }

  /** Number of layers that own a parameter store. */
  function ParametricCount(layers: seq<Layer>): (n: nat)
    ensures n <= |layers|
  {
    if |layers| == 0 then 0 else (if layers[0].Parametric() then 1 else 0) + ParametricCount(layers[1..])
  }

  /** The forward chain and what it leaves of the counter and buffer identities. */
  datatype Chain = Chain(nodes: seq<Node>, num: int, nextId: BufferId)

  /** Every store of `nodes` was allocated in `lo ..< hi`. */
  ghost predicate StoresWithin(nodes: seq<Node>, lo: nat, hi: nat) {
    forall i, v :: 0 <= i < |nodes| && nodes[i].Store().Some? && v in Vectors(nodes[i].Store().value) ==>
      lo <= v.data.id < hi
  }

  /** Node i realizes layer i, for every layer. */
  ghost predicate RealizesAll(layers: seq<Layer>, nodes: seq<Node>, gpu: Gpu)
    requires |nodes| >= |layers|
  {
    forall i :: 0 <= i < |layers| ==> Realizes(layers[i], nodes[i], gpu)
  }

  /** The loop of `createTrainingGraph`/`createInferenceGraph`: each layer in list order
      instantiated once, fed by the previous node. */
  function BuildChain(layers: seq<Layer>, num: int, optimizer: Optimizer, gpu: Gpu, nextId: BufferId): (r: Chain)
    requires AllBuildable(layers) && Glorot(gpu.generator)
    ensures |r.nodes| == |layers|
    ensures forall i :: 0 <= i < |layers| ==> Realizes(layers[i], r.nodes[i], gpu)
    ensures r.num == num + ParametricCount(layers)
    ensures r.nextId == nextId + BuffersPerInit * ParametricCount(layers)
    ensures StoresWithin(r.nodes, nextId, r.nextId)
    decreases |layers|
  {
    if |layers| == 0 then Chain([], num, nextId)
    else
      var first := CreateNode(layers[0], num, optimizer, gpu, nextId);
      var rest := BuildChain(layers[1..], first.num, optimizer, gpu, first.nextId);
      var nodes := [first.node] + rest.nodes;
      assert forall i :: 1 <= i < |layers| ==> layers[1..][i - 1] == layers[i] && nodes[i] == rest.nodes[i - 1];
      assert RealizesAll(layers, nodes, gpu) by {
        assert nodes[0] == first.node;
      }
      assert StoresWithin(nodes, nextId, rest.nextId) by {
        assert nodes[0] == first.node;
      }
      Chain(nodes, rest.num, rest.nextId)
  }

  /** The training chain: the layers in order, then exactly one MSE loss node. */
  ghost predicate TrainingChain(layers: seq<Layer>, g: Graph, gpu: Gpu) {
    && |g.nodes| == |layers| + 1
    && (forall i :: 0 <= i < |layers| ==> Realizes(layers[i], g.nodes[i], gpu))
    && g.nodes[|layers|] == MseNode
  }

  /** The inference chain: the same layers in order, then exactly one softmax node. */
  ghost predicate InferenceChain(layers: seq<Layer>, g: Graph, gpu: Gpu) {
    && |g.nodes| == |layers| + 1
    && (forall i :: 0 <= i < |layers| ==> Realizes(layers[i], g.nodes[i], gpu))
    && g.nodes[|layers|] == SoftMaxNode
  }

  /** A compiled model with the global counter and buffer identity after compilation. */
  datatype Compiled = Compiled(model: Sequential, num: int, nextId: BufferId)

  /** `createTrainingGraph`. */
  function TrainingGraph(layers: seq<Layer>, loss: LossLayer, num: int, optimizer: Optimizer, gpu: Gpu, nextId: BufferId)
    : (r: (Graph, Chain))
    requires AllBuildable(layers) && Glorot(gpu.generator)
    ensures TrainingChain(layers, r.0, gpu)
    ensures r.1.num == num + ParametricCount(layers)
    ensures r.1.nextId == nextId + BuffersPerInit * ParametricCount(layers)
    ensures StoresWithin(r.0.nodes, nextId, r.1.nextId)
  {
    var chain := BuildChain(layers, num, optimizer, gpu, nextId);
    var nodes := chain.nodes + [MseNode];
    assert forall i :: 0 <= i < |layers| ==> nodes[i] == chain.nodes[i];
    match loss
    case MSE => (Graph(nodes), chain)
  }

  /** `createInferenceGraph`. */
  function InferenceGraph(layers: seq<Layer>, num: int, optimizer: Optimizer, gpu: Gpu, nextId: BufferId)
    : (r: (Graph, Chain))
    requires AllBuildable(layers) && Glorot(gpu.generator)
    ensures InferenceChain(layers, r.0, gpu)
    ensures r.1.num == num + ParametricCount(layers)
    ensures r.1.nextId == nextId + BuffersPerInit * ParametricCount(layers)
    ensures StoresWithin(r.0.nodes, nextId, r.1.nextId)
  {
    var chain := BuildChain(layers, num, optimizer, gpu, nextId);
    var nodes := chain.nodes + [SoftMaxNode];
    assert forall i :: 0 <= i < |layers| ==> nodes[i] == chain.nodes[i];
    (Graph(nodes), chain)
  }

  /** `compile(optimizer:loss:)`: with a device and a queue, the training graph and then the
      inference graph, each instantiating every layer afresh; otherwise nothing. */
  function Compile(s: Sequential, optimizer: Optimizer, loss: LossLayer, num: int, gpu: Gpu, nextId: BufferId)
    : (r: Compiled)
    requires AllBuildable(s.layers) && Glorot(gpu.generator)
    ensures !(s.hasDevice && s.hasCommandQueue) ==> r == Compiled(s, num, nextId)
    ensures s.hasDevice && s.hasCommandQueue ==>
      && r.model == s.(trainingGraph := r.model.trainingGraph, inferenceGraph := r.model.inferenceGraph)
      && r.model.trainingGraph.Some? && r.model.inferenceGraph.Some?
      && TrainingChain(s.layers, r.model.trainingGraph.value, gpu)
      && InferenceChain(s.layers, r.model.inferenceGraph.value, gpu)
      && r.num == num + 2 * ParametricCount(s.layers)
      && r.nextId == nextId + 2 * BuffersPerInit * ParametricCount(s.layers)
  {
    if s.hasDevice && s.hasCommandQueue then
      var training := TrainingGraph(s.layers, loss, num, optimizer, gpu, nextId);
      var inference := InferenceGraph(s.layers, training.1.num, optimizer, gpu, training.1.nextId);
      Compiled(s.(trainingGraph := Some(training.0), inferenceGraph := Some(inference.0)), inference.1.num, inference.1.nextId)
    else
      Compiled(s, num, nextId)
  }

  /** The two graphs do not share parameter stores: for each parametric layer the training and
      inference nodes hold stores built from the same shape and, the generator being seeded with
      a constant, the same initial weights, but in disjoint buffers, so training the one never
      reaches the other. */
  lemma CompileDuplicatesStores(s: Sequential, optimizer: Optimizer, loss: LossLayer, num: int, gpu: Gpu,
                                nextId: BufferId, i: nat)
    requires AllBuildable(s.layers) && Glorot(gpu.generator)
    requires s.hasDevice && s.hasCommandQueue
    requires i < |s.layers| && s.layers[i].Parametric()
    ensures var m := Compile(s, optimizer, loss, num, gpu, nextId).model;
      var t := m.trainingGraph.value.nodes[i].Store();
      var n := m.inferenceGraph.value.nodes[i].Store();
      && t.Some? && n.Some?
      && t.value.descriptor == n.value.descriptor
      && t.value.weightVector.data.floats == n.value.weightVector.data.floats
      && forall a, b :: a in Vectors(t.value) && b in Vectors(n.value) ==> a.data.id < b.data.id
  {
    var m := Compile(s, optimizer, loss, num, gpu, nextId).model;
    var training := TrainingGraph(s.layers, loss, num, optimizer, gpu, nextId);
    var mid := training.1.nextId;
    var inference := InferenceGraph(s.layers, training.1.num, optimizer, gpu, mid);
    var tn := m.trainingGraph.value.nodes;
    var nn := m.inferenceGraph.value.nodes;
    assert tn == training.0.nodes && nn == inference.0.nodes;
    assert Realizes(s.layers[i], tn[i], gpu) && Realizes(s.layers[i], nn[i], gpu);
    assert tn[i].Store().Some? && nn[i].Store().Some?;
    forall a, b | a in Vectors(tn[i].Store().value) && b in Vectors(nn[i].Store().value)
      ensures a.data.id < b.data.id
    {
      assert a.data.id < mid;
      assert mid <= b.data.id;
    }
  }

  // ---------------------------------------------------------------------------------------
  // Training

  /** What one `trainIteration` call ends in. */
  datatype Iteration =
    | NoCommandBuffer
    | Stopped(fault: Fault)
    | Committed(iteration: int, numberOfIterations: int, sources: seq<Image>, lossImages: seq<LossLabels>,
                encoded: bool)

  /** `trainIteration(iteration:numberOfIterations:dataset:)` with the model's own batch size and one
      draw per slot; the loss images are taken from the first `batchSize` loss states. */
  function TrainIteration(s: Sequential, iteration: int, numberOfIterations: int, ds: Dataset, draws: seq<Draw>)
    : (r: Iteration)
    requires s.batchSize <= |draws|
    ensures r == NoCommandBuffer <==> !(s.hasDevice && s.hasCommandQueue)
    ensures r.Committed? ==>
      && r.iteration == iteration && r.numberOfIterations == numberOfIterations
      && |r.lossImages| == s.batchSize
      && r.encoded == s.trainingGraph.Some?
  {
    if !(s.hasDevice && s.hasCommandQueue) then NoCommandBuffer
    else
      match GetRandomTrainingBatch(ds, s.batchSize, draws, [])
      case Failure(f) => Stopped(f)
      case Success(out) =>
        if |out.lossStates| < s.batchSize then Stopped(LossStateIndexTrap(|out.lossStates|))
        else Committed(iteration, numberOfIterations, out.images, out.lossStates[..s.batchSize], s.trainingGraph.Some?)
  }

  /** A successful sampling loop either completed every draw or returned no images with fewer
      loss states than draws. */
  lemma {:induction false} SampleLoopShort(ds: Dataset, draws: seq<Draw>, batch: seq<Image>, lossStates: seq<LossLabels>)
    requires SampleLoop(ds, draws, batch, lossStates).Success?
    ensures var r := SampleLoop(ds, draws, batch, lossStates).value;
      || (CleanBefore(ds, draws, |draws|) && |r.images| == |batch| + |draws|)
      || (r.images == [] && |r.lossStates| < |lossStates| + |draws|)
    decreases |draws|
  {
    if |draws| > 0 && SampleOf(ds, draws[0]).Success? && draws[0].descriptorCreated {
      var smp := SampleOf(ds, draws[0]).value;
      SampleLoopShort(ds, draws[1..], batch + [smp.image], lossStates + [smp.lossLabels]);
      if CleanBefore(ds, draws[1..], |draws| - 1) {
        forall j | 0 <= j < |draws|
          ensures SampleOf(ds, draws[j]).Success? && draws[j].descriptorCreated
        {
          if j > 0 {
            assert draws[j] == draws[1..][j - 1];
          }
        }
      }
    }
  }

  /** A committed iteration always carries a full batch: `batchSize` source images, each paired
      with the loss image at its position. */
  lemma CommittedIterationIsFull(s: Sequential, iteration: int, numberOfIterations: int, ds: Dataset, draws: seq<Draw>)
    requires s.batchSize <= |draws|
    requires TrainIteration(s, iteration, numberOfIterations, ds, draws).Committed?
    ensures var r := TrainIteration(s, iteration, numberOfIterations, ds, draws);
      && |r.sources| == |r.lossImages| == s.batchSize
      && forall k :: 0 <= k < s.batchSize ==>
           SampleOf(ds, draws[k]).Success? &&
           r.sources[k] == SampleOf(ds, draws[k]).value.image &&
           r.lossImages[k] == SampleOf(ds, draws[k]).value.lossLabels
  {
    var n := s.batchSize;
    var window := draws[..n];
    SampleLoopShort(ds, window, [], []);
    assert forall k :: 0 <= k < n ==> window[k] == draws[k];
    FullBatch(ds, n, draws, []);
  }

  /** A descriptor failure in slot k < batchSize leaves k loss states, so building the
      `batchSize` loss images traps at index k: the sampler's partial-failure path never yields
      a usable iteration. */
  lemma DescriptorFailureTrapsIteration(s: Sequential, iteration: int, numberOfIterations: int, ds: Dataset,
                                        draws: seq<Draw>, k: nat)
    requires s.hasDevice && s.hasCommandQueue
    requires k < s.batchSize <= |draws|
    requires forall j :: 0 <= j < k ==> SampleOf(ds, draws[j]).Success? && draws[j].descriptorCreated
    requires SampleOf(ds, draws[k]).Success? && !draws[k].descriptorCreated
    ensures TrainIteration(s, iteration, numberOfIterations, ds, draws) == Stopped(LossStateIndexTrap(k))
  {
    DescriptorFailureKeepsEarlierLossStates(ds, s.batchSize, draws, [], k);
  }

  /** A run of `train(dataset:epoch:batchSize:)` that ended at its first trap: entry i is iteration
      i, no entry but the last stopped, and a run shorter than 300 ends in a stop. */
  ghost predicate TrainedUntilTrap(s: Sequential, ds: Dataset, draws: seq<seq<Draw>>, run: seq<Iteration>)
    requires |draws| >= TrainingIterations && forall i :: 0 <= i < TrainingIterations ==> s.batchSize <= |draws[i]|
  {
    && 1 <= |run| <= TrainingIterations
    && (forall i :: 0 <= i < |run| ==> run[i] == TrainIteration(s, i, TrainingIterations, ds, draws[i]))
    && (forall i :: 0 <= i < |run| - 1 ==> !run[i].Stopped?)
    && (|run| < TrainingIterations ==> run[|run| - 1].Stopped?)
  }

  /** `train(dataset:epoch:batchSize:)`: iterations numbered 0 to 299 out of 300, run until one of
      them traps, which ends the process; the `epoch` and `batchSize` arguments are ignored (the
      model's own batch size is used). The run holds every iteration that started: all 300 when
      none traps, otherwise those before the first trap and the trapping one last. */
  method Train(s: Sequential, ds: Dataset, epoch: int, batchSize: int, draws: seq<seq<Draw>>)
    returns (run: seq<Iteration>)
    requires |draws| >= TrainingIterations
    requires forall i :: 0 <= i < TrainingIterations ==> s.batchSize <= |draws[i]|
    ensures 1 <= |run| <= TrainingIterations
    ensures forall i :: 0 <= i < |run| ==> run[i] == TrainIteration(s, i, TrainingIterations, ds, draws[i])
    ensures forall i :: 0 <= i < |run| - 1 ==> !run[i].Stopped?
    ensures |run| < TrainingIterations ==> run[|run| - 1].Stopped?
    ensures (forall i :: 0 <= i < TrainingIterations ==> !TrainIteration(s, i, TrainingIterations, ds, draws[i]).Stopped?)
      ==> |run| == TrainingIterations
    ensures forall i :: 0 <= i < |run| && run[i].Committed? ==>
      run[i].iteration == i && run[i].numberOfIterations == TrainingIterations
    ensures !(s.hasDevice && s.hasCommandQueue) ==>
      |run| == TrainingIterations && forall i :: 0 <= i < |run| ==> run[i] == NoCommandBuffer
  {
    var trainingEpoch := TrainingIterations;
    run := [];
    var i := 0;
    while i < trainingEpoch
      invariant 0 <= i <= trainingEpoch
      invariant |run| == i
      invariant forall j :: 0 <= j < i ==> run[j] == TrainIteration(s, j, trainingEpoch, ds, draws[j])
      invariant forall j :: 0 <= j < i ==> !run[j].Stopped?
    {
      var iteration := TrainIteration(s, i, trainingEpoch, ds, draws[i]);
      run := run + [iteration];
      if iteration.Stopped? {
        return;
      }
      i := i + 1;
    }
  }

  /** The loop of `trainEpoch` from iteration `i` on, `latest` holding what `latestCommandBuffer`
      holds: each iteration's command buffer replaces it, nil when the iteration returned nil; a
      trapping iteration ends the run with its fault. */
  function EpochLoop(s: Sequential, ds: Dataset, draws: seq<seq<Draw>>, iterations: nat, i: nat, latest: Option<Iteration>)
    : (r: Result<Option<Iteration>, Fault>)
    requires i <= iterations <= |draws| && forall j :: 0 <= j < iterations ==> s.batchSize <= |draws[j]|
    ensures r.Success? <==> forall j :: i <= j < iterations ==> !TrainIteration(s, j, iterations, ds, draws[j]).Stopped?
    ensures forall k :: i <= k < iterations && TrainIteration(s, k, iterations, ds, draws[k]).Stopped? &&
                        (forall j :: i <= j < k ==> !TrainIteration(s, j, iterations, ds, draws[j]).Stopped?) ==>
      r == Failure(TrainIteration(s, k, iterations, ds, draws[k]).fault)
    ensures r.Success? && i == iterations ==> r.value == latest
    ensures r.Success? && i < iterations ==>
      r.value == if s.hasDevice && s.hasCommandQueue then Some(TrainIteration(s, iterations - 1, iterations, ds, draws[iterations - 1])) else None
    decreases iterations - i
  {
    if i == iterations then Success(latest)
    else
      var iteration := TrainIteration(s, i, iterations, ds, draws[i]);
      if iteration.Stopped? then Failure(iteration.fault)
      else EpochLoop(s, ds, draws, iterations, i + 1, if iteration.NoCommandBuffer? then None else Some(iteration))
  }

  /** The loop of `trainEpoch` run for `iterations` iterations, then the force unwrap of the latest
      command buffer: a trapping iteration ends the run first; otherwise the unwrap traps when the
      loop never ran or its last iteration returned nil (no device or queue). */
  function EpochRun(s: Sequential, ds: Dataset, draws: seq<seq<Draw>>, iterations: nat): (r: Result<Iteration, Fault>)
    requires iterations <= |draws| && forall i :: 0 <= i < iterations ==> s.batchSize <= |draws[i]|
    ensures r.Success? <==>
      && iterations >= 1 && s.hasDevice && s.hasCommandQueue
      && forall i :: 0 <= i < iterations ==> !TrainIteration(s, i, iterations, ds, draws[i]).Stopped?
    ensures iterations == 0 || !(s.hasDevice && s.hasCommandQueue) ==> r == Failure(NilUnwrapTrap)
    ensures forall k :: 0 <= k < iterations && TrainIteration(s, k, iterations, ds, draws[k]).Stopped? &&
                        (forall j :: 0 <= j < k ==> !TrainIteration(s, j, iterations, ds, draws[j]).Stopped?) ==>
      r == Failure(TrainIteration(s, k, iterations, ds, draws[k]).fault)
    ensures r.Success? ==> r.value == TrainIteration(s, iterations - 1, iterations, ds, draws[iterations - 1])
  {
    var latest :- EpochLoop(s, ds, draws, iterations, 0, None);
    if latest.None? then Failure(NilUnwrapTrap) else Success(latest.value)
  }

  /** `trainEpoch`, whose iteration count is the constant 0. */
  function TrainEpoch(s: Sequential, ds: Dataset): (r: Result<Iteration, Fault>)
    ensures r == Failure(NilUnwrapTrap)
  {
    EpochRun(s, ds, [], EpochIterations)
  }

  /** `train(trainSet:evaluationSet:)`: one `trainEpoch` per epoch; traps as soon as there is one. */
  function TrainEpochs(s: Sequential, ds: Dataset): (r: Outcome)
    ensures s.epochs < 0 ==> r == Trapped(RangeTrap(s.epochs))
    ensures s.epochs == 0 <==> r == Finished
    ensures s.epochs >= 1 ==> r == Trapped(NilUnwrapTrap)
  {
    if s.epochs < 0 then Trapped(RangeTrap(s.epochs))
    else if s.epochs == 0 then Finished
    else match TrainEpoch(s, ds)
      case Failure(f) => Trapped(f)
      case Success(_) => Finished
  }

  datatype Outcome = Finished | Trapped(fault: Fault)

  /** A freshly built model has one epoch, so `train(trainSet:evaluationSet:)` always traps on it. */
  lemma FreshModelTrainingTraps(deviceAvailable: bool, queueCreated: bool, layers: seq<Layer>, ds: Dataset)
    ensures TrainEpochs(WithLayers(deviceAvailable, queueCreated, layers), ds) == Trapped(NilUnwrapTrap)
  {
  }

  // ---------------------------------------------------------------------------------------
  // Evaluation

  /** An output image read back in feature-channel x height x width order. */
  datatype Readback = Readback(width: nat, height: nat, featureChannels: nat, vals: seq<real>)

  type OutputImage = o: Readback | |o.vals| == o.featureChannels * o.height * o.width
    witness Readback(0, 0, 0, [])

  /** The inference graph applied to one input image. */
  type Network = Image -> OutputImage

  /** The argmax scan over the first `n` values: strict `>` against a running maximum that starts
      at -100 with index -1. Returns (index, maximum). */
  function Scan(vals: seq<real>, n: nat): (int, real)
    requires n <= |vals|
  {
    if n == 0 then (-1, ArgmaxFloor)
    else
      var (index, maxV) := Scan(vals, n - 1);
      if vals[n - 1] > maxV then (n - 1, vals[n - 1]) else (index, maxV)
  }

  /** The index `evaluateTestSet` compares with the label byte: a position of `vals` holding a value
      above -100, or -1 when there is none. */
  function Argmax(vals: seq<real>): (r: int)
    ensures -1 <= r < |vals|
    ensures r != -1 ==> vals[r] > ArgmaxFloor
  {
    ScanIsFirstMaximum(vals, |vals|);
    Scan(vals, |vals|).0
  }

  /** What the scan keeps: -1 while no value beats -100; otherwise the first position holding the
      largest value, which exceeds -100. */
  lemma {:induction false} ScanIsFirstMaximum(vals: seq<real>, n: nat)
    requires n <= |vals|
    ensures var (index, maxV) := Scan(vals, n);
      && -1 <= index < n
      && (index == -1 <==> forall k :: 0 <= k < n ==> vals[k] <= ArgmaxFloor)
      && (index == -1 ==> maxV == ArgmaxFloor)
      && (index != -1 ==>
            && maxV == vals[index] && maxV > ArgmaxFloor
            && (forall k :: 0 <= k < n ==> vals[k] <= maxV)
            && (forall k :: 0 <= k < index ==> vals[k] < maxV))
  {
    if n > 0 {
      ScanIsFirstMaximum(vals, n - 1);
    }
  }

  /** `Argmax` as the evaluation uses it: -1 exactly when no value exceeds -100, otherwise the
      first position of the maximum. */
  lemma ArgmaxIsFirstMaximum(vals: seq<real>)
    ensures var a := Argmax(vals);
      && -1 <= a < |vals|
      && (a == -1 <==> forall k :: 0 <= k < |vals| ==> vals[k] <= ArgmaxFloor)
      && (a != -1 ==>
            && vals[a] > ArgmaxFloor
            && (forall k :: 0 <= k < |vals| ==> vals[k] <= vals[a])
            && (forall k :: 0 <= k < a ==> vals[k] < vals[a]))
  {
    ScanIsFirstMaximum(vals, |vals|);
  }

  /** The evaluation's argmax recovers the class a training target encodes. */
  lemma ArgmaxOfOneHot(classIndex: int)
    requires 0 <= classIndex < TargetSlots
    ensures Argmax(OneHot(classIndex).value) == classIndex
  {
    var v := OneHot(classIndex).value;
    ArgmaxIsFirstMaximum(v);
    var a := Argmax(v);
    assert v[classIndex] == 1.0 > ArgmaxFloor;
    assert a != -1;
    assert v[classIndex] <= v[a];
  }

  /** One more copy of `w`. */
  lemma MulStep(a: nat, w: nat)
    ensures (a + 1) * w == a * w + w
    ensures a >= 1 ==> a * w >= w
  {
  }

  /** The innermost loop of the scan in `evaluateTestSet`: the `w` columns of one row, whose
      first value sits at flat position `row` (the source's `(i * height + j) * width`). */
  method ScanRow(vals: seq<real>, row: nat, w: nat, index0: int, maxV0: real) returns (index: int, maxV: real)
    requires row + w <= |vals|
    requires (index0, maxV0) == Scan(vals, row)
    ensures (index, maxV) == Scan(vals, row + w)
  {
    index, maxV := index0, maxV0;
    var k := 0;
    while k < w
      invariant 0 <= k <= w
      invariant (index, maxV) == Scan(vals, row + k)
    {
      var val := vals[row + k];
      if val > maxV {
        maxV := val;
        index := row + k;
      }
      k := k + 1;
    }
  }

  /** The middle loop: the `h` rows of `w` values of one channel, starting at flat position
      `start`; row j starts at `start + j * w`. */
  method ScanChannel(vals: seq<real>, start: nat, h: nat, w: nat, index0: int, maxV0: real)
    returns (index: int, maxV: real)
    requires start + h * w <= |vals|
    requires (index0, maxV0) == Scan(vals, start)
    ensures (index, maxV) == Scan(vals, start + h * w)
  {
    index, maxV := index0, maxV0;
    var row := start;
    var j := 0;
    while j < h
      invariant 0 <= j <= h && start <= row
      invariant row + (h - j) * w == start + h * w
      invariant (index, maxV) == Scan(vals, row)
    {
      MulStep(h - j - 1, w);
      index, maxV := ScanRow(vals, row, w, index, maxV);
      row := row + w;
      j := j + 1;
    }
  }

  /** The triple loop of `evaluateTestSet` over channels, rows and columns: it visits the readback
      in flat order, so it finds what the flat scan finds. */
  method ArgmaxOfReadback(o: OutputImage) returns (index: int)
    ensures index == Argmax(o.vals)
  {
    var c, h, w := o.featureChannels, o.height, o.width;
    var plane := h * w;
    var maxV := ArgmaxFloor;
    index := -1;
    var start := 0;
    var i := 0;
    assert |o.vals| == c * plane;
    while i < c
      invariant 0 <= i <= c && 0 <= start
      invariant start + (c - i) * plane == |o.vals|
      invariant (index, maxV) == Scan(o.vals, start)
    {
      MulStep(c - i - 1, plane);
      index, maxV := ScanChannel(o.vals, start, h, w, index, maxV);
      start := start + plane;
      i := i + 1;
    }
  }

  /** Step `c`, slot `idx` input: `imageSize * imageSize` bytes from
      `imageMetadataSize + imageSize * imageSize * c + idx` (the slot is not scaled by the record size). */
  function EvaluationImage(ds: Dataset, c: int, idx: int): (r: Result<Image, Fault>)
    ensures r.Success? <==> 0 <= ds.imageMetadataSize + ds.RecordBytes() * c + idx &&
                            ds.imageMetadataSize + ds.RecordBytes() * c + idx + ds.RecordBytes() <= |ds.testImages|
    ensures r.Success? ==> r.value.pixels == ds.testImages[ds.imageMetadataSize + ds.RecordBytes() * c + idx..
                                                           ds.imageMetadataSize + ds.RecordBytes() * c + idx + ds.RecordBytes()]
    ensures r.Success? ==> r.value.width == r.value.height == ds.imageSize && r.value.featureChannels == 1
  {
    var offset := ds.imageMetadataSize + ds.RecordBytes() * c + idx;
    match ReadBytes(ds.testImages, offset, ds.RecordBytes())
    case None => Failure(ImageReadOutOfRange(offset))
    case Some(pixels) => Success(Image(ds.imageSize, ds.imageSize, 1, pixels))
  }

  /** Step `c`, slot `idx` label: the byte at `labelMetadataSize + c + idx`. */
  function EvaluationLabel(ds: Dataset, c: int, idx: int): (r: Result<Byte, Fault>)
    ensures r.Success? <==> 0 <= ds.labelMetadataSize + c + idx < |ds.testLabels|
    ensures r.Success? ==> r.value == ds.testLabels[ds.labelMetadataSize + c + idx]
  {
    match ReadByte(ds.testLabels, ds.labelMetadataSize + c + idx)
    case None => Failure(LabelReadOutOfRange(ds.labelMetadataSize + c + idx))
    case Some(b) => Success(b)
  }

  /** The inputs written for step `c`, slots `0 ..< count`, in slot order. */
  function StepInputs(ds: Dataset, c: int, count: nat): (r: Result<seq<Image>, Fault>)
    ensures r.Success? <==> forall idx :: 0 <= idx < count ==> EvaluationImage(ds, c, idx).Success?
    ensures r.Success? ==> |r.value| == count
    ensures r.Success? ==> forall idx :: 0 <= idx < count ==> EvaluationImage(ds, c, idx) == Success(r.value[idx])
  {
    if count == 0 then Success([])
    else
      var front :- StepInputs(ds, c, count - 1);
      var last :- EvaluationImage(ds, c, count - 1);
      Success(front + [last])
  }

  /** Output `o` of slot `idx` at step `c` is scored correct: its argmax equals the slot's label byte. */
  ghost predicate Hit(ds: Dataset, c: int, o: OutputImage, idx: int) {
    EvaluationLabel(ds, c, idx).Success? && Argmax(o.vals) == EvaluationLabel(ds, c, idx).value
  }

  /** The number of hits among `outputs[idx..]`, each output at its own slot. */
  ghost function Hits(ds: Dataset, c: int, outputs: seq<OutputImage>, idx: nat): (n: nat)
    ensures idx <= |outputs| ==> n <= |outputs| - idx
    decreases |outputs| - idx
  {
    if idx >= |outputs| then 0
    else (if Hit(ds, c, outputs[idx], idx) then 1 else 0) + Hits(ds, c, outputs, idx + 1)
  }

  /** The completion handler of step `c`: each output from slot `idx` on is scored against its label.
      It completes exactly when every label byte it reads is inside the label data; then every
      output is counted done, and `correct` grows by exactly the number of hits. */
  function ScoreFrom(ds: Dataset, c: int, outputs: seq<OutputImage>, idx: nat, correct: int, done: int)
    : (r: Result<(int, int), Fault>)
    ensures r.Success? <==> forall j :: idx <= j < |outputs| ==> EvaluationLabel(ds, c, j).Success?
    ensures r.Success? && idx <= |outputs| ==> r.value.1 == done + (|outputs| - idx)
    ensures r.Success? ==> r.value.0 == correct + Hits(ds, c, outputs, idx)
    decreases |outputs| - idx
  {
    if idx >= |outputs| then Success((correct, done))
    else
      var labelByte :- EvaluationLabel(ds, c, idx);
      var hit := if Argmax(outputs[idx].vals) == labelByte then 1 else 0;
      ScoreFrom(ds, c, outputs, idx + 1, correct + hit, done + 1)
  }

  /** How `evaluateTestSet` ends: without a queue it returns early and reports nothing. */
  datatype Evaluation = NoCommandQueue | EvaluationStopped(fault: Fault) | Report(correct: int, done: int, testImages: int)

  /** Images scored per step: one per slot with an inference graph, none without one (the
      encode returns no outputs). */
  function PerStep(s: Sequential): int {
    if s.inferenceGraph.Some? then s.batchSize else 0
  }

  /** The outputs of one step: the inference graph applied to every slot's input, in slot order;
      none without an inference graph. */
  function StepOutputs(s: Sequential, net: Network, inputs: seq<Image>): (r: seq<OutputImage>)
    ensures |r| == if s.inferenceGraph.Some? then |inputs| else 0
    ensures forall k :: 0 <= k < |r| ==> r[k] == net(inputs[k])
  {
    if s.inferenceGraph.Some? then seq(|inputs|, k requires 0 <= k < |inputs| => net(inputs[k])) else []
  }

  /** The hits of step `c`: 0 when its inputs cannot be written. */
  ghost function StepHits(s: Sequential, ds: Dataset, net: Network, c: int): (n: nat)
    requires s.batchSize >= 0
    ensures n <= PerStep(s)
  {
    match StepInputs(ds, c, s.batchSize)
    case Failure(_) => 0
    case Success(inputs) => Hits(ds, c, StepOutputs(s, net, inputs), 0)
  }

  /** The hits of the steps `c ..< N`. */
  ghost function HitsFrom(s: Sequential, ds: Dataset, net: Network, c: nat): (n: nat)
    requires s.batchSize >= 0
    ensures c <= ds.totalNumberOfTestImages ==> n <= (ds.totalNumberOfTestImages - c) * PerStep(s)
    decreases ds.totalNumberOfTestImages - c
  {
    if c >= ds.totalNumberOfTestImages then 0
    else
      MulStep(ds.totalNumberOfTestImages - c - 1, PerStep(s));
      StepHits(s, ds, net, c) + HitsFrom(s, ds, net, c + 1)
  }

  /** Step `c` of the evaluation loop: write the slot inputs, run the inference graph, then score
      every output against its label. It completes exactly when every slot's image and, with an
      inference graph, every slot's label can be read; then it counts `PerStep` images done and
      the step's hits correct. */
  function EvaluationStep(s: Sequential, ds: Dataset, net: Network, c: int, correct: int, done: int)
    : (r: Result<(int, int), Fault>)
    requires s.batchSize >= 0
    ensures r.Success? <==>
      && (forall idx :: 0 <= idx < s.batchSize ==> EvaluationImage(ds, c, idx).Success?)
      && (s.inferenceGraph.Some? ==> forall idx :: 0 <= idx < s.batchSize ==> EvaluationLabel(ds, c, idx).Success?)
    ensures r.Success? ==> r.value.1 == done + PerStep(s) && r.value.0 == correct + StepHits(s, ds, net, c)
  {
    var inputs :- StepInputs(ds, c, s.batchSize);
    ScoreFrom(ds, c, StepOutputs(s, net, inputs), 0, correct, done)
  }

  /** The steps `c ..< N` of the evaluation loop: a report follows `N - c` completed steps, with
      `PerStep` more images done and that step's hits more correct for each. */
  function EvaluateFrom(s: Sequential, ds: Dataset, net: Network, c: nat, correct: int, done: int): (r: Evaluation)
    requires s.batchSize >= 0
    ensures !r.NoCommandQueue?
    ensures r.Report? ==> r.testImages == ds.totalNumberOfTestImages
    ensures r.Report? && c <= ds.totalNumberOfTestImages ==>
      r.done == done + (ds.totalNumberOfTestImages - c) * PerStep(s)
    ensures r.Report? ==> r.correct == correct + HitsFrom(s, ds, net, c)
    decreases ds.totalNumberOfTestImages - c
  {
    if c >= ds.totalNumberOfTestImages then Report(correct, done, ds.totalNumberOfTestImages)
    else
      match EvaluationStep(s, ds, net, c, correct, done)
      case Failure(f) => EvaluationStopped(f)
      case Success((correct', done')) =>
        MulStep(ds.totalNumberOfTestImages - c - 1, PerStep(s));
        EvaluateFrom(s, ds, net, c + 1, correct', done')
  }

  /** `evaluateTestSet(dataset:iterations:)`, with the inference graph given as `net`. The slot
      range traps on a negative batch size; the first slot's image is made on `gDevice`, whose
      force unwrap traps without a device; then a missing queue ends the call with nothing
      reported. A report counts every scored image done and exactly the hits correct. */
  function EvaluateTestSet(s: Sequential, ds: Dataset, net: Network): (r: Evaluation)
    ensures s.batchSize < 0 ==> r == EvaluationStopped(RangeTrap(s.batchSize))
    ensures s.batchSize > 0 && !s.hasDevice ==> r == EvaluationStopped(NilUnwrapTrap)
    ensures r == NoCommandQueue <==> s.batchSize >= 0 && (s.hasDevice || s.batchSize == 0) && !s.hasCommandQueue
    ensures r.Report? ==>
      && s.batchSize >= 0 && ds.totalNumberOfTestImages >= 0
      && r.testImages == ds.totalNumberOfTestImages
      && r.done == ds.totalNumberOfTestImages * PerStep(s)
      && r.correct == HitsFrom(s, ds, net, 0)
  {
    if s.batchSize < 0 then EvaluationStopped(RangeTrap(s.batchSize))
    else if s.batchSize > 0 && !s.hasDevice then EvaluationStopped(NilUnwrapTrap)
    else if !s.hasCommandQueue then NoCommandQueue
    else if ds.totalNumberOfTestImages < 0 then EvaluationStopped(RangeTrap(ds.totalNumberOfTestImages))
    else EvaluateFrom(s, ds, net, 0, 0, 0)
  }

  /** Every prediction of `net` at the evaluation's read positions matches its label byte. */
  ghost predicate AlwaysRight(ds: Dataset, net: Network, batchSize: nat) {
    forall c, idx ::
      (0 <= c < ds.totalNumberOfTestImages && 0 <= idx < batchSize &&
       EvaluationImage(ds, c, idx).Success? && EvaluationLabel(ds, c, idx).Success?) ==>
      Argmax(net(EvaluationImage(ds, c, idx).value).vals) == EvaluationLabel(ds, c, idx).value
  }

  /** When every output from slot `idx` on is a hit, the hits are all of them. */
  lemma {:induction false} HitsAllRight(ds: Dataset, c: int, outputs: seq<OutputImage>, idx: nat)
    requires idx <= |outputs|
    requires forall j :: idx <= j < |outputs| ==> Hit(ds, c, outputs[j], j)
    ensures Hits(ds, c, outputs, idx) == |outputs| - idx
    decreases |outputs| - idx
  {
    if idx < |outputs| {
      HitsAllRight(ds, c, outputs, idx + 1);
    }
  }

  /** A completed step of a network that is always right hits every image it scores. */
  lemma StepAllRight(s: Sequential, ds: Dataset, net: Network, c: int, correct: int, done: int)
    requires s.batchSize >= 0 && 0 <= c < ds.totalNumberOfTestImages
    requires EvaluationStep(s, ds, net, c, correct, done).Success?
    requires AlwaysRight(ds, net, s.batchSize)
    ensures StepHits(s, ds, net, c) == PerStep(s)
  {
    var inputs := StepInputs(ds, c, s.batchSize).value;
    var outputs := StepOutputs(s, net, inputs);
    forall j | 0 <= j < |outputs|
      ensures Hit(ds, c, outputs[j], j)
    {
      assert EvaluationImage(ds, c, j) == Success(inputs[j]);
    }
    HitsAllRight(ds, c, outputs, 0);
  }

  /** A completed evaluation from step `c` wrote every slot's image of every remaining step and,
      with an inference graph, read every slot's label. */
  lemma {:induction false} EvaluateFromReads(s: Sequential, ds: Dataset, net: Network, c: nat, correct: int, done: int)
    requires s.batchSize >= 0 && c <= ds.totalNumberOfTestImages
    requires EvaluateFrom(s, ds, net, c, correct, done).Report?
    ensures forall c', idx :: c <= c' < ds.totalNumberOfTestImages && 0 <= idx < s.batchSize ==>
      EvaluationImage(ds, c', idx).Success? && (s.inferenceGraph.Some? ==> EvaluationLabel(ds, c', idx).Success?)
    decreases ds.totalNumberOfTestImages - c
  {
    if c < ds.totalNumberOfTestImages {
      var (correct', done') := EvaluationStep(s, ds, net, c, correct, done).value;
      EvaluateFromReads(s, ds, net, c + 1, correct', done');
    }
  }

  /** A network that is always right hits every image scored from step `c` on. */
  lemma {:induction false} EvaluateFromAllRight(s: Sequential, ds: Dataset, net: Network, c: nat, correct: int, done: int)
    requires s.batchSize >= 0 && c <= ds.totalNumberOfTestImages
    requires EvaluateFrom(s, ds, net, c, correct, done).Report?
    requires AlwaysRight(ds, net, s.batchSize)
    ensures HitsFrom(s, ds, net, c) == (ds.totalNumberOfTestImages - c) * PerStep(s)
    decreases ds.totalNumberOfTestImages - c
  {
    if c < ds.totalNumberOfTestImages {
      StepAllRight(s, ds, net, c, correct, done);
      var (correct', done') := EvaluationStep(s, ds, net, c, correct, done).value;
      EvaluateFromAllRight(s, ds, net, c + 1, correct', done');
      MulStep(ds.totalNumberOfTestImages - c - 1, PerStep(s));
    }
  }

  /** A completed evaluation hits at most as many images as it scores, and all of them when the
      network is always right. */
  lemma EvaluationCounts(s: Sequential, ds: Dataset, net: Network)
    requires EvaluateTestSet(s, ds, net).Report?
    ensures var e := EvaluateTestSet(s, ds, net);
      && 0 <= e.correct <= e.done
      && (AlwaysRight(ds, net, s.batchSize) ==> e.correct == e.done)
  {
    if AlwaysRight(ds, net, s.batchSize) {
      EvaluateFromAllRight(s, ds, net, 0, 0, 0);
    }
  }

  /** A completed evaluation with an inference graph read the label of the last slot of the last
      step, `labelMetadataSize + (N - 1) + (batchSize - 1)`: the label data must reach that far. */
  lemma CompletedEvaluationReadLabels(s: Sequential, ds: Dataset, net: Network)
    requires EvaluateTestSet(s, ds, net).Report? && s.inferenceGraph.Some?
    requires s.batchSize >= 1 && ds.totalNumberOfTestImages >= 1
    ensures ds.labelMetadataSize + ds.totalNumberOfTestImages + s.batchSize - 2 < |ds.testLabels|
  {
    EvaluateFromReads(s, ds, net, 0, 0, 0);
    assert EvaluationLabel(ds, ds.totalNumberOfTestImages - 1, s.batchSize - 1).Success?;
  }

  /** With the standard layout (exactly N label bytes after the header) and an inference graph,
      the slot offset `c + idx` runs past the labels on the last step whenever the batch holds
      more than one slot: the evaluation never completes. */
  lemma EvaluationOverrunsLabels(s: Sequential, ds: Dataset, net: Network)
    requires s.hasCommandQueue && s.inferenceGraph.Some? && s.batchSize >= 2
    requires ds.totalNumberOfTestImages >= 1
    requires |ds.testLabels| == ds.labelMetadataSize + ds.totalNumberOfTestImages
    ensures !EvaluateTestSet(s, ds, net).Report?
  {
    if EvaluateTestSet(s, ds, net).Report? {
      CompletedEvaluationReadLabels(s, ds, net);
    }
  }

  /** The printed accuracy, `gCorrect / (N / 100)`: its denominator is the test record count, not
      the number of images scored; with N = 0 the float division has no finite value. */
  function ReportedAccuracy(e: Evaluation): (r: Option<real>)
    requires e.Report?
    ensures r.Some? <==> e.testImages != 0
    ensures r.Some? ==> r.value * e.testImages as real == 100.0 * e.correct as real
  {
    if e.testImages == 0 then None else Some(e.correct as real / (e.testImages as real / 100.0))
  }

  /** A network that is always right is reported at 100 times the batch size per cent. */
  lemma PerfectNetworkAccuracy(s: Sequential, ds: Dataset, net: Network)
    requires EvaluateTestSet(s, ds, net).Report? && s.inferenceGraph.Some?
    requires AlwaysRight(ds, net, s.batchSize) && ds.totalNumberOfTestImages >= 1
    ensures ReportedAccuracy(EvaluateTestSet(s, ds, net)) == Some(100.0 * s.batchSize as real)
  {
    EvaluationCounts(s, ds, net);
    AccuracyOfFullTally(EvaluateTestSet(s, ds, net), s.batchSize);
  }

  /** A tally with `perRecord` hits per test record reports `100 * perRecord` per cent. */
  lemma AccuracyOfFullTally(e: Evaluation, perRecord: int)
    requires e.Report? && e.testImages >= 1 && e.correct == e.testImages * perRecord
    ensures ReportedAccuracy(e) == Some(100.0 * perRecord as real)
  {
    var n := e.testImages as real;
    var b := perRecord as real;
    var a := ReportedAccuracy(e).value;
    assert e.correct as real == n * b;
    assert a * n == (100.0 * b) * n;
  }
}
