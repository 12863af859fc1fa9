/** The per-layer parameter store (`DataSource`): vector shapes, initial state, hyperparameters,
    buffer identities, and its keyed serialisation. Buffers are values tagged with an identity,
    so that which allocation a reference points at is visible; contents are those at the end
    of the operation modelled. The Adam arithmetic itself is left out. */
module DataSources {
  import opened Wrappers
  import opened Coding

  /** The only optimizer the engine offers. */
  datatype Optimizer = Adam

  /** Hyperparameters fixed at construction. */
  const LearningRate: real := 0.00005
  const Beta1: real := 0.9
  const Beta2: real := 0.999
  const Epsilon: real := 0.00000001

  /** Stride of a freshly built `MPSCNNConvolutionDescriptor`. */
  const DefaultStride := 1

  /** Number of buffers one construction allocates, and one restore. */
  const BuffersPerInit := 9
  const BuffersPerRestore := 6

  type BufferId = nat

  /** An `MTLBuffer` of 32-bit floats: its allocation identity and contents. */
  datatype Buffer = Buffer(id: BufferId, floats: seq<real>) {
    /** The byte length, `value.length`. */
    function Length(): nat {
      4 * |floats|
    }
  }

  /** An `MPSVector` of float32: its descriptor length and the buffer behind it. */
  datatype Vector = Vector(length: nat, data: Buffer)

  /** The seeded uniform generator (`MPSMatrixRandomMTGP32`, seed 0): the values it writes into a
      vector of the given length when the bound is computed from the given fan sum `in + out`.
      Being seeded with a constant, it is a function of those two numbers. */
  type WeightGenerator = (nat, int) -> seq<real>

  /** The device's contribution: the generator, and the value a fresh allocation happens to hold
      before anything is written to it. */
  datatype Gpu = Gpu(generator: WeightGenerator, stale: real)

  /** The generator fills exactly the requested length and stays within
      `[-limit, limit]`, `limit = sqrt(6 / fanSum)`; `w * w * fanSum <= 6` says the same without
      a square root. */
  ghost predicate Glorot(g: WeightGenerator) {
    forall n: nat, fanSum: int {:trigger g(n, fanSum)} :: fanSum >= 1 ==>
      |g(n, fanSum)| == n && forall i :: 0 <= i < n ==> g(n, fanSum)[i] * g(n, fanSum)[i] * fanSum as real <= 6.0
  }

  /** `MPSCNNConvolutionDescriptor`: kernel shape, channel counts and strides. */
  datatype ConvolutionDescriptor = ConvolutionDescriptor(
    kernelWidth: int, kernelHeight: int,
    inputFeatureChannels: int, outputFeatureChannels: int,
    strideInPixelsX: int, strideInPixelsY: int)

  /** `MPSNNOptimizerAdam` as configured; its update arithmetic is not modelled. */
  datatype AdamOptimizer = AdamOptimizer(learningRate: real, beta1: real, beta2: real, epsilon: real, timeStep: nat)

  /** `MPSCNNConvolutionWeightsAndBiasesState`: the two buffers it refers to. */
  datatype WeightsAndBiasesState = WeightsAndBiasesState(weights: Buffer, biases: Buffer)

  datatype DataSource = DataSource(
    descriptor: ConvolutionDescriptor,
    name: string,
    learningRate: real,
    epsilon: real,
    beta1: real,
    beta2: real,
    weightPointer: BufferId,
    biasPointer: BufferId,
    weightMomentumVector: Vector,
    biasMomentumVector: Vector,
    weightVelocityVector: Vector,
    biasVelocityVector: Vector,
    weightVector: Vector,
    biasVector: Vector,
    updater: AdamOptimizer,
    convWtsAndBias: WeightsAndBiasesState)
  {
    /** `label()`. */
    function Label(): Option<string> {
      Some(name)
    }

    /** `weights()`: the buffer the weight pointer was taken from. */
    function Weights(): BufferId {
      weightPointer
    }

    /** `biasTerms()`: the buffer the bias pointer was taken from. */
    function BiasTerms(): Option<BufferId> {
      Some(biasPointer)
    }

    /** `update(with:gradientState:sourceState:)`: the optimizer writes into, and returns, the
        weights-and-biases state captured by the store. */
    function Update(): WeightsAndBiasesState {
      convWtsAndBias
    }

    /** Number of weights the kernel shape calls for. */
    function WeightCount(): int {
      descriptor.inputFeatureChannels * descriptor.kernelHeight * descriptor.kernelWidth * descriptor.outputFeatureChannels
    }
  }

  /** Every vector matches the kernel shape and its buffer holds exactly its length. */
  ghost predicate WellShaped(ds: DataSource) {
    && ds.weightVector.length == ds.weightMomentumVector.length == ds.weightVelocityVector.length == ds.WeightCount()
    && ds.biasVector.length == ds.biasMomentumVector.length == ds.biasVelocityVector.length
       == ds.descriptor.outputFeatureChannels
    && Exact(ds.weightVector) && Exact(ds.biasVector)
    && Exact(ds.weightMomentumVector) && Exact(ds.weightVelocityVector)
    && Exact(ds.biasMomentumVector) && Exact(ds.biasVelocityVector)
  }

  ghost predicate Exact(v: Vector) {
    |v.data.floats| == v.length
  }

  ghost predicate AllZero(v: Vector) {
    forall k :: 0 <= k < |v.data.floats| ==> v.data.floats[k] == 0.0
  }

  /** `MPSVector(device:descriptor:)`: a new buffer of `length` floats. */
  function Allocate(id: BufferId, length: nat, gpu: Gpu): Vector {
    Vector(length, Buffer(id, seq(length, _ => gpu.stale)))
  }

  /** `memset_pattern4(pointer, &zero, byteCount)`: the first `byteCount / 4` floats become 0. */
  function ZeroFill(v: Vector, byteCount: nat): (r: Vector)
    requires byteCount <= v.data.Length()
    ensures r.length == v.length && r.data.id == v.data.id && |r.data.floats| == |v.data.floats|
    ensures forall k :: 0 <= k < byteCount / 4 ==> r.data.floats[k] == 0.0
    ensures forall k :: byteCount / 4 <= k < |v.data.floats| ==> r.data.floats[k] == v.data.floats[k]
  {
    var n := byteCount / 4;
    Vector(v.length, Buffer(v.data.id, seq(n, _ => 0.0) + v.data.floats[n..]))
  }

  /** `init(kernelWidth:kernelHeight:inputFeatureChannels:outputFeatureChannels:stride:...)`,
      allocating buffers `nextId ..< nextId + 9` in the source's order and returning the next
      free identity. */
  function Create(
    kernelWidth: int, kernelHeight: int, inputFeatureChannels: int, outputFeatureChannels: int,
    stride: int, name: string, optimizer: Optimizer, gpu: Gpu, nextId: BufferId)
    : (r: (DataSource, BufferId))
    requires kernelWidth >= 1 && kernelHeight >= 1 && inputFeatureChannels >= 1 && outputFeatureChannels >= 1
    requires Glorot(gpu.generator)
    // shapes follow from the kernel
    ensures WellShaped(r.0)
    ensures r.0.weightVector.length == inputFeatureChannels * kernelHeight * kernelWidth * outputFeatureChannels
    ensures r.0.biasVector.length == outputFeatureChannels
    ensures r.0.descriptor == ConvolutionDescriptor(
      kernelWidth, kernelHeight, inputFeatureChannels, outputFeatureChannels, stride, stride)
    // initial state
    ensures AllZero(r.0.weightMomentumVector) && AllZero(r.0.weightVelocityVector)
    ensures AllZero(r.0.biasVector) && AllZero(r.0.biasMomentumVector) && AllZero(r.0.biasVelocityVector)
    ensures r.0.weightVector.data.floats == gpu.generator(r.0.weightVector.length, inputFeatureChannels + outputFeatureChannels)
    ensures forall k :: 0 <= k < |r.0.weightVector.data.floats| ==>
      r.0.weightVector.data.floats[k] * r.0.weightVector.data.floats[k]
        * (inputFeatureChannels + outputFeatureChannels) as real <= 6.0
    // hyperparameters
    ensures r.0.name == name
    ensures r.0.learningRate == LearningRate && r.0.beta1 == Beta1 && r.0.beta2 == Beta2 && r.0.epsilon == Epsilon
    ensures r.0.updater == AdamOptimizer(LearningRate, Beta1, Beta2, Epsilon, 0)
    // identities
    ensures r.1 == nextId + BuffersPerInit
    ensures nextId <= r.0.convWtsAndBias.biases.id < r.1
    ensures forall v :: v in Vectors(r.0) ==> nextId <= v.data.id < r.1
    ensures r.0.Weights() == r.0.weightVector.data.id
    ensures r.0.BiasTerms() == Some(r.0.biasVector.data.id)
  {
    var lenWeights := inputFeatureChannels * kernelHeight * kernelWidth * outputFeatureChannels;
    var sizeWeights := lenWeights * 4;
    var sizeBiases := outputFeatureChannels * 4;
    var adam := AdamOptimizer(LearningRate, Beta1, Beta2, Epsilon, 0);

    var weightMomentum := Allocate(nextId, lenWeights, gpu);
    var weightVelocity := Allocate(nextId + 1, lenWeights, gpu);
    var weights := Allocate(nextId + 2, lenWeights, gpu);
    // The first three bias vectors are replaced below; only the first bias buffer stays referenced.
    var firstBias := Allocate(nextId + 5, outputFeatureChannels, gpu);

    var weightVelocity' := ZeroFill(weightVelocity, sizeWeights);
    var weightMomentum' := ZeroFill(weightMomentum, sizeWeights);

    var bias := Allocate(nextId + 6, outputFeatureChannels, gpu);
    var biasVelocity := Allocate(nextId + 7, outputFeatureChannels, gpu);
    var biasMomentum := Allocate(nextId + 8, outputFeatureChannels, gpu);
    var bias' := ZeroFill(bias, sizeBiases);
    var biasVelocity' := ZeroFill(biasVelocity, sizeBiases);
    var biasMomentum' := ZeroFill(biasMomentum, sizeBiases);

    var weights' := Vector(lenWeights, Buffer(weights.data.id, gpu.generator(lenWeights, inputFeatureChannels + outputFeatureChannels)));

    var ds := DataSource(
      ConvolutionDescriptor(kernelWidth, kernelHeight, inputFeatureChannels, outputFeatureChannels, stride, stride),
      name, LearningRate, Epsilon, Beta1, Beta2,
      weights'.data.id, bias'.data.id,
      weightMomentum', biasMomentum', weightVelocity', biasVelocity', weights', bias',
      adam,
      WeightsAndBiasesState(weights'.data, firstBias.data));
    (ds, nextId + BuffersPerInit)
  }

  /** The six vectors of a store. */
  function Vectors(ds: DataSource): seq<Vector> {
    [ds.weightVector, ds.biasVector, ds.weightMomentumVector,
     ds.biasMomentumVector, ds.weightVelocityVector, ds.biasVelocityVector]
  }

  /** After construction the weights-and-biases state holds the weight buffer and the FIRST bias
      allocation, whereas `biasTerms()` (and serialisation) use the second: the optimizer's bias
      results never reach the bias the forward kernel loads, and that first buffer was never
      zero-filled. */
  lemma CreateSplitsBias(
    kernelWidth: int, kernelHeight: int, inputFeatureChannels: int, outputFeatureChannels: int,
    stride: int, name: string, optimizer: Optimizer, gpu: Gpu, nextId: BufferId)
    requires kernelWidth >= 1 && kernelHeight >= 1 && inputFeatureChannels >= 1 && outputFeatureChannels >= 1
    requires Glorot(gpu.generator)
    ensures var ds := Create(kernelWidth, kernelHeight, inputFeatureChannels, outputFeatureChannels,
                             stride, name, optimizer, gpu, nextId).0;
      && ds.Update().weights == ds.weightVector.data
      && ds.Update().weights.id == ds.Weights()
      && ds.Update().biases.id != ds.biasVector.data.id
      && Some(ds.Update().biases.id) != ds.BiasTerms()
      && ds.Update().biases.floats == seq(outputFeatureChannels, _ => gpu.stale)
  {
  }

  // ---------------------------------------------------------------------------------------
  // Serialisation

  /** The coding keys `encode(to:)` writes. */
  const NameKey := "name"
  const Beta1Key := "beta1"
  const Beta2Key := "beta2"
  const EpsilonKey := "epsilon"
  const KernelSizeKey := "kernelSize"
  const InputChannelsKey := "inputFeatureChannels"
  const OutputChannelsKey := "outputFeatureChannels"
  const WeightVectorKey := "weightVector"
  const BiasVectorKey := "biasVector"
  const WeightMomentumKey := "weightMomentum"
  const BiasMomentumKey := "biasMomentum"
  const WeightVelocityKey := "weightVelocity"
  const BiasVelocityKey := "biasVelocity"
  const LearningRateKey := "learningRate"

  /** `KeyedEncodingContainer.encode(_: MTLBuffer)`: `length / 4` floats. */
  function EncodeBuffer(b: Buffer): (r: Value)
    ensures r.FloatsValue? && r.floats == b.floats
  {
    FloatsValue(b.floats[..b.Length() / 4])
  }

  /** `KeyedEncodingContainer.encode(_: MPSVector)`: its buffer. */
  function EncodeVector(v: Vector): Value {
    EncodeBuffer(v.data)
  }

  /** `KeyedDecodingContainer.decode(MTLBuffer.Type)`: a new buffer of `count * 4` bytes. */
  function DecodeBuffer(c: Container, key: string, id: BufferId): (r: Result<Buffer, DecodingError>)
    ensures r.Success? <==> key in c && c[key].FloatsValue?
    ensures r.Success? ==> r.value.id == id && c[key] == FloatsValue(r.value.floats)
  {
    var floats :- DecodeFloats(c, key);
    Success(Buffer(id, floats))
  }

  /** `KeyedDecodingContainer.decode(MPSVector.Type)`: a vector of `length / 4` floats over it. */
  function DecodeVector(c: Container, key: string, id: BufferId): (r: Result<Vector, DecodingError>)
    ensures r.Success? <==> key in c && c[key].FloatsValue?
    ensures r.Success? ==> r.value.data.id == id && c[key] == FloatsValue(r.value.data.floats)
    ensures r.Success? ==> r.value.length == |r.value.data.floats|
  {
    var buffer :- DecodeBuffer(c, key, id);
    Success(Vector(buffer.Length() / 4, buffer))
  }

  /** The buffer codec loses nothing for an exact vector: every float comes back, in order, in a
      new buffer, and so does the length. */
  lemma VectorRoundTrip(v: Vector, c: Container, key: string, id: BufferId)
    requires key in c && c[key] == EncodeVector(v)
    ensures DecodeVector(c, key, id) == Success(Vector(|v.data.floats|, Buffer(id, v.data.floats)))
    ensures Exact(v) ==> DecodeVector(c, key, id).value.length == v.length
  {
    assert v.data.floats[..v.data.Length() / 4] == v.data.floats;
  }

  /** `encode(to:)`. */
  function Encode(ds: DataSource): Container {
    map[
      NameKey := StringValue(ds.name),
      Beta1Key := FloatValue(ds.beta1),
      Beta2Key := FloatValue(ds.beta2),
      EpsilonKey := FloatValue(ds.epsilon),
      KernelSizeKey := SizeValue(ds.descriptor.kernelWidth, ds.descriptor.kernelHeight),
      InputChannelsKey := IntValue(ds.descriptor.inputFeatureChannels),
      OutputChannelsKey := IntValue(ds.descriptor.outputFeatureChannels),
      WeightVectorKey := EncodeVector(ds.weightVector),
      BiasVectorKey := EncodeVector(ds.biasVector),
      WeightMomentumKey := EncodeVector(ds.weightMomentumVector),
      BiasMomentumKey := EncodeVector(ds.biasMomentumVector),
      WeightVelocityKey := EncodeVector(ds.weightVelocityVector),
      BiasVelocityKey := EncodeVector(ds.biasVelocityVector),
      LearningRateKey := FloatValue(ds.learningRate)
    ]
  }

  /** What the encoding holds under the optimiser and name keys. */
  lemma EncodeScalarLookups(ds: DataSource)
    ensures var c := Encode(ds);
      && NameKey in c && c[NameKey] == StringValue(ds.name)
      && Beta1Key in c && c[Beta1Key] == FloatValue(ds.beta1)
      && Beta2Key in c && c[Beta2Key] == FloatValue(ds.beta2)
      && EpsilonKey in c && c[EpsilonKey] == FloatValue(ds.epsilon)
  {
  }

  /** What the encoding holds under the descriptor and learning-rate keys. */
  lemma EncodeShapeLookups(ds: DataSource)
    ensures var c := Encode(ds);
      && KernelSizeKey in c && c[KernelSizeKey] == SizeValue(ds.descriptor.kernelWidth, ds.descriptor.kernelHeight)
      && InputChannelsKey in c && c[InputChannelsKey] == IntValue(ds.descriptor.inputFeatureChannels)
      && OutputChannelsKey in c && c[OutputChannelsKey] == IntValue(ds.descriptor.outputFeatureChannels)
      && LearningRateKey in c && c[LearningRateKey] == FloatValue(ds.learningRate)
  {
  }

  /** What the encoding holds under the weight and bias keys and the first momentum key. */
  lemma EncodeParameterLookups(ds: DataSource)
    ensures var c := Encode(ds);
      && WeightVectorKey in c && c[WeightVectorKey] == EncodeVector(ds.weightVector)
      && BiasVectorKey in c && c[BiasVectorKey] == EncodeVector(ds.biasVector)
      && WeightMomentumKey in c && c[WeightMomentumKey] == EncodeVector(ds.weightMomentumVector)
  {
  }

  /** What the encoding holds under the remaining optimiser-state keys. */
  lemma EncodeStateLookups(ds: DataSource)
    ensures var c := Encode(ds);
      && BiasMomentumKey in c && c[BiasMomentumKey] == EncodeVector(ds.biasMomentumVector)
      && WeightVelocityKey in c && c[WeightVelocityKey] == EncodeVector(ds.weightVelocityVector)
      && BiasVelocityKey in c && c[BiasVelocityKey] == EncodeVector(ds.biasVelocityVector)
  {
  }

  /** The six vector keys. */
  const VectorKeys: set<string> :=
    {WeightVectorKey, BiasVectorKey, WeightMomentumKey, BiasMomentumKey, WeightVelocityKey, BiasVelocityKey}

  /** Every key `init(from:)` decodes before the vectors holds a value of the decoded type. */
  ghost predicate RestoreScalarsPresent(c: Container) {
    && LearningRateKey in c && c[LearningRateKey].FloatValue?
    && NameKey in c && c[NameKey].StringValue?
    && Beta1Key in c && c[Beta1Key].FloatValue?
    && Beta2Key in c && c[Beta2Key].FloatValue?
    && EpsilonKey in c && c[EpsilonKey].FloatValue?
    && KernelSizeKey in c && c[KernelSizeKey].SizeValue?
    && InputChannelsKey in c && c[InputChannelsKey].IntValue?
    && OutputChannelsKey in c && c[OutputChannelsKey].IntValue?
  }

  /** `init(from:)`, decoding in the source's order and allocating buffers `nextId ..< nextId + 6`. */
  function Restore(c: Container, nextId: BufferId): (r: Result<(DataSource, BufferId), DecodingError>)
    ensures r.Success? <==>
      && RestoreScalarsPresent(c)
      && (forall key :: key in VectorKeys ==> key in c && c[key].FloatsValue?)
    ensures r.Success? ==> var (ds, next) := r.value;
      && next == nextId + BuffersPerRestore
      && ds.weightVector.data.id == nextId && ds.biasVector.data.id == nextId + 1
      && ds.weightMomentumVector.data.id == nextId + 2 && ds.biasMomentumVector.data.id == nextId + 3
      && ds.weightVelocityVector.data.id == nextId + 4 && ds.biasVelocityVector.data.id == nextId + 5
      && ds.Weights() == ds.weightVector.data.id && ds.BiasTerms() == Some(ds.biasVector.data.id)
      && ds.Update() == WeightsAndBiasesState(ds.weightVector.data, ds.biasVector.data)
      && ds.descriptor.strideInPixelsX == DefaultStride && ds.descriptor.strideInPixelsY == DefaultStride
      && ds.updater.timeStep == 0
  {
    var learningRate :- DecodeFloat(c, LearningRateKey);
    var name :- DecodeString(c, NameKey);
    var beta1 :- DecodeFloat(c, Beta1Key);
    var beta2 :- DecodeFloat(c, Beta2Key);
    var epsilon :- DecodeFloat(c, EpsilonKey);
    var kernelSize :- DecodeSize(c, KernelSizeKey);
    var inputFeatureChannels :- DecodeInt(c, InputChannelsKey);
    var outputFeatureChannels :- DecodeInt(c, OutputChannelsKey);
    var descriptor := ConvolutionDescriptor(
      kernelSize.0, kernelSize.1, inputFeatureChannels, outputFeatureChannels, DefaultStride, DefaultStride);
    var weightVector :- DecodeVector(c, WeightVectorKey, nextId);
    var biasVector :- DecodeVector(c, BiasVectorKey, nextId + 1);
    var weightMomentum :- DecodeVector(c, WeightMomentumKey, nextId + 2);
    var biasMomentum :- DecodeVector(c, BiasMomentumKey, nextId + 3);
    var weightVelocity :- DecodeVector(c, WeightVelocityKey, nextId + 4);
    var biasVelocity :- DecodeVector(c, BiasVelocityKey, nextId + 5);
    Success((
      DataSource(
        descriptor, name, learningRate, epsilon, beta1, beta2,
        weightVector.data.id, biasVector.data.id,
        weightMomentum, biasMomentum, weightVelocity, biasVelocity, weightVector, biasVector,
        AdamOptimizer(learningRate, beta1, beta2, epsilon, 0),
        WeightsAndBiasesState(weightVector.data, biasVector.data)),
      nextId + BuffersPerRestore))
  }

  /** Same floats and length, whatever the buffer. */
  ghost predicate SameVector(a: Vector, b: Vector) {
    a.length == b.length && a.data.floats == b.data.floats
  }

  /** Restoring what a store encoded gives back its name, hyperparameters, kernel shape, channel
      counts and all six vectors; the stride falls back to 1 and the optimizer time step to 0,
      because neither is written. After the restore, `weights()`, `biasTerms()` and the
      weights-and-biases state all refer to the decoded weight and bias buffers. */
  lemma RestoreEncodeRoundTrip(ds: DataSource, nextId: BufferId)
    requires WellShaped(ds)
    ensures Restore(Encode(ds), nextId).Success?
    ensures var (r, next) := Restore(Encode(ds), nextId).value;
      && next == nextId + BuffersPerRestore
      && r.name == ds.name && r.Label() == ds.Label()
      && r.learningRate == ds.learningRate && r.beta1 == ds.beta1 && r.beta2 == ds.beta2 && r.epsilon == ds.epsilon
      && r.descriptor.kernelWidth == ds.descriptor.kernelWidth
      && r.descriptor.kernelHeight == ds.descriptor.kernelHeight
      && r.descriptor.inputFeatureChannels == ds.descriptor.inputFeatureChannels
      && r.descriptor.outputFeatureChannels == ds.descriptor.outputFeatureChannels
      && r.descriptor.strideInPixelsX == DefaultStride && r.descriptor.strideInPixelsY == DefaultStride
      && r.updater == AdamOptimizer(ds.learningRate, ds.beta1, ds.beta2, ds.epsilon, 0)
      && SameVector(r.weightVector, ds.weightVector) && SameVector(r.biasVector, ds.biasVector)
      && SameVector(r.weightMomentumVector, ds.weightMomentumVector)
      && SameVector(r.biasMomentumVector, ds.biasMomentumVector)
      && SameVector(r.weightVelocityVector, ds.weightVelocityVector)
      && SameVector(r.biasVelocityVector, ds.biasVelocityVector)
      && r.Weights() == r.weightVector.data.id
      && r.BiasTerms() == Some(r.biasVector.data.id)
      && r.Update() == WeightsAndBiasesState(r.weightVector.data, r.biasVector.data)
      && WellShaped(r)
  {
    var c := Encode(ds);
    EncodeScalarLookups(ds);
    EncodeShapeLookups(ds);
    EncodeParameterLookups(ds);
    EncodeStateLookups(ds);
    VectorRoundTrip(ds.weightVector, c, WeightVectorKey, nextId);
    VectorRoundTrip(ds.biasVector, c, BiasVectorKey, nextId + 1);
    VectorRoundTrip(ds.weightMomentumVector, c, WeightMomentumKey, nextId + 2);
    VectorRoundTrip(ds.biasMomentumVector, c, BiasMomentumKey, nextId + 3);
    VectorRoundTrip(ds.weightVelocityVector, c, WeightVelocityKey, nextId + 4);
    VectorRoundTrip(ds.biasVelocityVector, c, BiasVelocityKey, nextId + 5);
  }

  /** The encoding does not depend on the stride or the optimizer time step, so the keyed round
      trip cannot restore a stride other than 1 or a time step other than 0. */
  lemma EncodeDropsStrideAndTimeStep(ds: DataSource, strideX: int, strideY: int, timeStep: nat)
    ensures Encode(ds) == Encode(ds.(
      descriptor := ds.descriptor.(strideInPixelsX := strideX, strideInPixelsY := strideY),
      updater := ds.updater.(timeStep := timeStep)))
    ensures WellShaped(ds) && ds.descriptor.strideInPixelsX != DefaultStride ==>
      Restore(Encode(ds), 0).Success? &&
      Restore(Encode(ds), 0).value.0.descriptor.strideInPixelsX != ds.descriptor.strideInPixelsX
  {
    if WellShaped(ds) {
      RestoreEncodeRoundTrip(ds, 0);
    }
  }
}
