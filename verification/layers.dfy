/** The closed set of layer kinds and the graph node each one instantiates into (`Layer` and
    its `createNode`), plus the terminal loss and softmax nodes. Nodes are descriptors: the
    node kind and the configuration the source hands to it. */
module Layers {
  import opened Wrappers
  import opened DataSources

  datatype Padding = Same | Valid

  /** `MPSNNDefaultPadding` methods the model distinguishes. */
  datatype PaddingPolicy = SizeSame | ValidOnly

  /** `Padding.padding`. */
  function Policy(p: Padding): (r: PaddingPolicy)
    ensures r == SizeSame <==> p == Same
    ensures r == ValidOnly <==> p == Valid
  {
    match p
    case Same => SizeSame
    case Valid => ValidOnly
  }

  datatype PoolingMode = Max | Average

  /** A layer specification; kernel sizes are the integral parts of the source's `CGSize`. */
  datatype Layer =
    | Convolution(kernelWidth: int, kernelHeight: int, inputFeatureChannels: int, outputFeatureChannels: int,
                  stride: int, padding: Padding)
    | ConvolutionTranspose(kernelWidth: int, kernelHeight: int, inputFeatureChannels: int, outputFeatureChannels: int,
                           stride: int, padding: Padding)
    | Dense(kernelWidth: int, kernelHeight: int, inputFeatureChannels: int, outputFeatureChannels: int, stride: int)
    | Pooling(mode: PoolingMode, filterSize: int, stride: int, padding: Padding)
    | ReLU
    | Sigmoid
    | Flatten(width: int)
    | Dropout(keepProbability: real)
  {
    /** Layers that own a parameter store. */
    predicate Parametric() {
      Convolution? || ConvolutionTranspose? || Dense?
    }

    /** Metal accepts the store's descriptor: a non-empty kernel and channel counts. */
    predicate Buildable() {
      Parametric() ==>
        kernelWidth >= 1 && kernelHeight >= 1 && inputFeatureChannels >= 1 && outputFeatureChannels >= 1
    }
  }

  datatype LossType = MeanSquaredError
  datatype Reduction = Mean

  /** An `MPSNNFilterNode` as a tag with its configuration. */
  datatype Node =
    | ConvolutionNode(weights: DataSource, paddingPolicy: PaddingPolicy)
    | ConvolutionTransposeNode(weights: DataSource, paddingPolicy: PaddingPolicy)
    | FullyConnectedNode(weights: DataSource)
    | PoolingMaxNode(filterSize: int, stride: int, paddingPolicy: PaddingPolicy)
    | PoolingAverageNode(filterSize: int, stride: int, paddingPolicy: PaddingPolicy)
    | NeuronReLUNode(a: real)
    | NeuronSigmoidNode
    | ReshapeNode(resultWidth: int, resultHeight: int, resultFeatureChannels: int)
    | DropoutNode(keepProbability: real)
    | LossNode(lossType: LossType, reduction: Reduction)
    | SoftMaxNode
  {
    /** The parameter store a node reads its weights from, if any. */
    function Store(): Option<DataSource> {
      if ConvolutionNode? || ConvolutionTransposeNode? || FullyConnectedNode? then Some(weights) else None
    }
  }

  /** `MSE().createNode`: mean-squared error with mean reduction. */
  const MseNode := LossNode(MeanSquaredError, Mean)

  /** What a `Void` value prints as inside a string interpolation. */
  const VoidText := "()"

  /** The name `"Conv\(num += 1)"` builds: the interpolated value is that of the assignment,
      which is `Void`, so the counter never reaches the string. */
  function StoreName(prefix: string): string {
    prefix + VoidText
  }

  /** One instantiation: the node, and the global counter and buffer identity after it. */
  datatype Built = Built(node: Node, num: int, nextId: BufferId)

  /** A store as `DataSource.init` leaves it for the given shape, stride and name, including the
      state `update` writes: the weight buffer and the first, stale bias allocation, which is not
      the bias vector the forward kernel reads. */
  ghost predicate FreshStore(ds: DataSource, gpu: Gpu, kernelWidth: int, kernelHeight: int,
                             inputFeatureChannels: int, outputFeatureChannels: int, stride: int, name: string)
  {
    && ds.weightVector.data.floats == gpu.generator(ds.weightVector.length, inputFeatureChannels + outputFeatureChannels)
    && ds.descriptor == ConvolutionDescriptor(
         kernelWidth, kernelHeight, inputFeatureChannels, outputFeatureChannels, stride, stride)
    && ds.name == name
    && WellShaped(ds)
    && AllZero(ds.biasVector) && AllZero(ds.weightMomentumVector) && AllZero(ds.weightVelocityVector)
    && AllZero(ds.biasMomentumVector) && AllZero(ds.biasVelocityVector)
    && ds.learningRate == LearningRate && ds.beta1 == Beta1 && ds.beta2 == Beta2 && ds.epsilon == Epsilon
    && ds.updater == AdamOptimizer(LearningRate, Beta1, Beta2, Epsilon, 0)
    && ds.Weights() == ds.weightVector.data.id && ds.BiasTerms() == Some(ds.biasVector.data.id)
    && ds.Update().weights == ds.weightVector.data
    && ds.Update().biases.id != ds.biasVector.data.id
    && ds.Update().biases.floats == seq(outputFeatureChannels, _ => gpu.stale)
  }

  /** `DataSource.init` leaves a fresh store. */
  lemma CreateIsFresh(kernelWidth: int, kernelHeight: int, inputFeatureChannels: int, outputFeatureChannels: int,
                      stride: int, name: string, optimizer: Optimizer, gpu: Gpu, nextId: BufferId)
    requires kernelWidth >= 1 && kernelHeight >= 1 && inputFeatureChannels >= 1 && outputFeatureChannels >= 1
    requires Glorot(gpu.generator)
    ensures FreshStore(Create(kernelWidth, kernelHeight, inputFeatureChannels, outputFeatureChannels, stride, name,
                              optimizer, gpu, nextId).0,
                       gpu, kernelWidth, kernelHeight, inputFeatureChannels, outputFeatureChannels, stride, name)
  {
  }

  /** The node a layer must produce: its kind, with the layer's own configuration. */
  ghost predicate Realizes(layer: Layer, node: Node, gpu: Gpu) {
    match layer
    case Convolution(kw, kh, i, o, s, p) =>
      node.ConvolutionNode? && node.paddingPolicy == Policy(p) && FreshStore(node.weights, gpu, kw, kh, i, o, s, "Conv()")
    case ConvolutionTranspose(kw, kh, i, o, s, p) =>
      node.ConvolutionTransposeNode? && node.paddingPolicy == Policy(p)
      && FreshStore(node.weights, gpu, kw, kh, i, o, s, "ConvT()")
    case Dense(kw, kh, i, o, s) =>
      node.FullyConnectedNode? && FreshStore(node.weights, gpu, kw, kh, i, o, s, "Dense()")
    case Pooling(Max, f, s, p) => node == PoolingMaxNode(f, s, Policy(p))
    case Pooling(Average, f, s, p) => node == PoolingAverageNode(f, s, Policy(p))
    case ReLU => node == NeuronReLUNode(0.0)
    case Sigmoid => node == NeuronSigmoidNode
    case Flatten(w) => node == ReshapeNode(1, 1, w)
    case Dropout(k) => node == DropoutNode(k)
  }

  /** `createNode(source:device:commandQueue:optimizer:)` with the global counter `num` and the
      next free buffer identity threaded through. */
  function CreateNode(layer: Layer, num: int, optimizer: Optimizer, gpu: Gpu, nextId: BufferId): (r: Built)
    requires layer.Buildable() && Glorot(gpu.generator)
    ensures Realizes(layer, r.node, gpu)
    ensures r.num == if layer.Parametric() then num + 1 else num
    ensures r.node.Store().Some? <==> layer.Parametric()
    ensures !layer.Parametric() ==> r.nextId == nextId
    ensures layer.Parametric() ==>
      && r.nextId == nextId + BuffersPerInit
      && forall v :: v in Vectors(r.node.weights) ==> nextId <= v.data.id < r.nextId
  {
    match layer
    case Convolution(kw, kh, i, o, s, p) =>
      assert StoreName("Conv") == "Conv()";
      CreateIsFresh(kw, kh, i, o, s, StoreName("Conv"), optimizer, gpu, nextId);
      var (ds, next) := Create(kw, kh, i, o, s, StoreName("Conv"), optimizer, gpu, nextId);
      Built(ConvolutionNode(ds, Policy(p)), num + 1, next)
    case ConvolutionTranspose(kw, kh, i, o, s, p) =>
      assert StoreName("ConvT") == "ConvT()";
      CreateIsFresh(kw, kh, i, o, s, StoreName("ConvT"), optimizer, gpu, nextId);
      var (ds, next) := Create(kw, kh, i, o, s, StoreName("ConvT"), optimizer, gpu, nextId);
      Built(ConvolutionTransposeNode(ds, Policy(p)), num + 1, next)
    case Dense(kw, kh, i, o, s) =>
      assert StoreName("Dense") == "Dense()";
      CreateIsFresh(kw, kh, i, o, s, StoreName("Dense"), optimizer, gpu, nextId);
      var (ds, next) := Create(kw, kh, i, o, s, StoreName("Dense"), optimizer, gpu, nextId);
      Built(FullyConnectedNode(ds), num + 1, next)
    case Pooling(mode, f, s, p) =>
      var node := match mode
        case Max => PoolingMaxNode(f, s, Policy(p))
        case Average => PoolingAverageNode(f, s, Policy(p));
      Built(node, num, nextId)
    case ReLU => Built(NeuronReLUNode(0.0), num, nextId)
    case Sigmoid => Built(NeuronSigmoidNode, num, nextId)
    case Flatten(w) => Built(ReshapeNode(1, 1, w), num, nextId)
    case Dropout(k) => Built(DropoutNode(k), num, nextId)
  }

  /** All layers of one kind share one store name whatever the counter: the counter value never
      appears in a label, so labels cannot tell stores apart. */
  lemma LabelsIgnoreCounter(a: Layer, b: Layer, numA: int, numB: int, optimizer: Optimizer, gpu: Gpu,
                            idA: BufferId, idB: BufferId)
    requires a.Buildable() && b.Buildable() && Glorot(gpu.generator)
    requires a.Parametric() && (a.Convolution? == b.Convolution?) && (a.Dense? == b.Dense?)
    requires (a.ConvolutionTranspose? == b.ConvolutionTranspose?)
    ensures var na := CreateNode(a, numA, optimizer, gpu, idA).node;
      var nb := CreateNode(b, numB, optimizer, gpu, idB).node;
      na.weights.Label() == nb.weights.Label()
      && na.weights.name == StoreName(if a.Convolution? then "Conv" else if a.Dense? then "Dense" else "ConvT")
  {
  }
}
