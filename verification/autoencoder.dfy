/** The application wiring: the MNIST dataset layout, the convolutional autoencoder's layer list,
    and the run that compiles and trains it. Downloading, decompressing and file loading are I/O:
    the four files enter as their contents, or as `None` when they could not be obtained. */
module Autoencoder {
  import opened Wrappers
  import opened Tensors
  import opened Datasets
  import opened DataSources
  import opened Layers
  import opened SequentialModel

  /** The MNIST layout constants. */
  const MnistImageSize := 28
  const MnistImageMetadataPrefixSize := 16
  const MnistLabelsMetadataPrefixSize := 8

  /** The four MNIST files as obtained. */
  datatype MnistFiles = MnistFiles(
    trainImages: Option<seq<Byte>>,
    trainLabels: Option<seq<Byte>>,
    testImages: Option<seq<Byte>>,
    testLabels: Option<seq<Byte>>)
  {
    predicate Complete() {
      trainImages.Some? && trainLabels.Some? && testImages.Some? && testLabels.Some?
    }
  }

  /** The record count derived from a label file: its byte count (0 when missing) less the
      label header. */
  function RecordCount(labels: Option<seq<Byte>>): (r: int)
    ensures labels.None? ==> r == -MnistLabelsMetadataPrefixSize
    ensures labels.Some? ==> r + MnistLabelsMetadataPrefixSize == |labels.value|
    ensures r >= -MnistLabelsMetadataPrefixSize
  {
    (if labels.Some? then |labels.value| else 0) - MnistLabelsMetadataPrefixSize
  }

  /** `createMNISTDataset`: the dataset over the four files with the MNIST layout; a missing file
      leaves its pointer nil and the force unwrap traps. */
  function CreateMnistDataset(files: MnistFiles): (r: Result<Dataset, Fault>)
    ensures r.Success? <==> files.Complete()
    ensures r.Failure? ==> r.error == NilUnwrapTrap
    ensures r.Success? ==>
      && r.value.trainImages == files.trainImages.value && r.value.trainLabels == files.trainLabels.value
      && r.value.testImages == files.testImages.value && r.value.testLabels == files.testLabels.value
      && r.value.totalNumberOfTrainImages == |files.trainLabels.value| - MnistLabelsMetadataPrefixSize
      && r.value.totalNumberOfTestImages == |files.testLabels.value| - MnistLabelsMetadataPrefixSize
      && r.value.imageSize == MnistImageSize
      && r.value.imageMetadataSize == MnistImageMetadataPrefixSize
      && r.value.labelMetadataSize == MnistLabelsMetadataPrefixSize
  {
    if !files.Complete() then Failure(NilUnwrapTrap)
    else
      Success(Dataset(
        RecordCount(files.trainLabels), files.trainImages.value, files.trainLabels.value,
        RecordCount(files.testLabels), files.testImages.value, files.testLabels.value,
        MnistImageSize, MnistImageMetadataPrefixSize, MnistLabelsMetadataPrefixSize))
  }

  /** Files in the IDX layout for n records: the image header and 784 bytes per image, the label
      header and one byte per label. */
  ghost predicate IdxFiles(images: seq<Byte>, labels: seq<Byte>, n: nat) {
    && |images| == MnistImageMetadataPrefixSize + n * MnistImageSize * MnistImageSize
    && |labels| == MnistLabelsMetadataPrefixSize + n
  }

  /** On well-formed training files of n records the derived record count is n, and every record
      below it can be read: its image and its label lie inside the files. */
  lemma MnistRecordsReadable(files: MnistFiles, n: nat, i: int)
    requires files.Complete() && IdxFiles(files.trainImages.value, files.trainLabels.value, n)
    requires 0 <= i < n
    ensures var ds := CreateMnistDataset(files).value;
      && ds.totalNumberOfTrainImages == n
      && TrainImage(ds, i).Success? && TrainLabel(ds, i).Success?
  {
    var ds := CreateMnistDataset(files).value;
    var R := MnistImageSize * MnistImageSize;
    assert ds.RecordBytes() == R;
    assert (i + 1) * R <= n * R;
  }

  /** `createConvMSEAE`: two convolution/ReLU/max-pool stages, two transposed-convolution/ReLU
      stages, and a final convolution to one channel with a sigmoid. */
  function ConvMseAe(): (r: seq<Layer>)
    ensures |r| == 12 && r[11] == Sigmoid
  {
    [
      Convolution(3, 3, 1, 32, 1, Same),
      ReLU,
      Pooling(Max, 2, 2, Same),
      Convolution(3, 3, 32, 32, 1, Same),
      ReLU,
      Pooling(Max, 2, 2, Same),
      ConvolutionTranspose(3, 3, 32, 32, 2, Same),
      ReLU,
      ConvolutionTranspose(3, 3, 32, 32, 2, Same),
      ReLU,
      Convolution(3, 3, 32, 1, 1, Same),
      Sigmoid
    ]
  }

  /** The parametric layers of a list, in order. */
  function ParametricLayers(layers: seq<Layer>): (r: seq<Layer>)
    ensures |r| == ParametricCount(layers)
    ensures forall k :: 0 <= k < |r| ==> r[k].Parametric()
  {
    if |layers| == 0 then []
    else (if layers[0].Parametric() then [layers[0]] else []) + ParametricLayers(layers[1..])
  }

  /** Each parametric layer consumes the channels the previous one produces, starting from one
      input channel and ending in one output channel. */
  ghost predicate ChannelsChain(layers: seq<Layer>) {
    var p := ParametricLayers(layers);
    && |p| >= 1
    && p[0].inputFeatureChannels == 1
    && p[|p| - 1].outputFeatureChannels == 1
    && forall k :: 0 <= k < |p| - 1 ==> p[k + 1].inputFeatureChannels == p[k].outputFeatureChannels
  }

  /** How many layers of the list satisfy `p`. */
  function CountWhere(layers: seq<Layer>, p: Layer -> bool): (n: nat)
    ensures n <= |layers|
  {
    if |layers| == 0 then 0 else (if p(layers[0]) then 1 else 0) + CountWhere(layers[1..], p)
  }

  predicate StrideTwoMaxPool(l: Layer) {
    l.Pooling? && l.mode == Max && l.stride == 2
  }

  predicate StrideTwoTranspose(l: Layer) {
    l.ConvolutionTranspose? && l.stride == 2
  }

  predicate StridedConvolution(l: Layer) {
    l.Convolution? && l.stride != 1
  }

  /** The autoencoder's list split at its stage boundaries: two encoder stages, two decoder
      stages, and the output stage. */
  lemma ConvMseAeStages()
    ensures ConvMseAe() ==
      [Convolution(3, 3, 1, 32, 1, Same), ReLU, Pooling(Max, 2, 2, Same)]
      + [Convolution(3, 3, 32, 32, 1, Same), ReLU, Pooling(Max, 2, 2, Same)]
      + [ConvolutionTranspose(3, 3, 32, 32, 2, Same), ReLU]
      + [ConvolutionTranspose(3, 3, 32, 32, 2, Same), ReLU]
      + [Convolution(3, 3, 32, 1, 1, Same), Sigmoid]
  {
  }

  /** The parametric layers of the autoencoder, in order: five of them. */
  lemma ConvMseAeChannels()
    ensures ParametricLayers(ConvMseAe()) == [
      Convolution(3, 3, 1, 32, 1, Same), Convolution(3, 3, 32, 32, 1, Same),
      ConvolutionTranspose(3, 3, 32, 32, 2, Same), ConvolutionTranspose(3, 3, 32, 32, 2, Same),
      Convolution(3, 3, 32, 1, 1, Same)]
  {
    ConvMseAeStages();
    var a := [Convolution(3, 3, 1, 32, 1, Same), ReLU, Pooling(Max, 2, 2, Same)];
    var b := [Convolution(3, 3, 32, 32, 1, Same), ReLU, Pooling(Max, 2, 2, Same)];
    var c := [ConvolutionTranspose(3, 3, 32, 32, 2, Same), ReLU];
    var e := [Convolution(3, 3, 32, 1, 1, Same), Sigmoid];
    StageParametric(a);
    StageParametric(b);
    StageParametric(c);
    StageParametric(e);
    ParametricLayersAppend(a, b);
    ParametricLayersAppend(a + b, c);
    ParametricLayersAppend(a + b + c, c);
    ParametricLayersAppend(a + b + c + c, e);
  }

  /** The channel counts chain 1 -> 32 -> 32 -> 32 -> 32 -> 1 through the parametric layers. */
  lemma ConvMseAeChannelsChain()
    ensures ChannelsChain(ConvMseAe())
  {
    ConvMseAeChannels();
  }

  /** Compiling the autoencoder instantiates five parameter stores per graph. */
  lemma ConvMseAeParametricCount()
    ensures ParametricCount(ConvMseAe()) == 5
  {
    ConvMseAeChannels();
  }

  /** A stage holds one parametric layer, in front. */
  lemma StageParametric(stage: seq<Layer>)
    requires 2 <= |stage| <= 3 && stage[0].Parametric()
    requires forall k :: 1 <= k < |stage| ==> !stage[k].Parametric()
    ensures ParametricLayers(stage) == [stage[0]]
  {
    assert ParametricLayers(stage[1..][1..]) == [] by {
      if |stage| == 3 {
        assert stage[1..][1..][1..] == [];
      }
    }
  }

  /** Every parametric layer of the autoencoder has a non-empty kernel and channel counts. */
  lemma ConvMseAeBuildable()
    ensures AllBuildable(ConvMseAe())
  {
  }

  /** The spatial size is halved by exactly two stride-2 max pools. */
  lemma ConvMseAePools()
    ensures CountWhere(ConvMseAe(), StrideTwoMaxPool) == 2
  {
    StageCounts(StrideTwoMaxPool, 1, 0, 0);
  }

  /** The spatial size is doubled back by exactly two stride-2 transposed convolutions. */
  lemma ConvMseAeTransposes()
    ensures CountWhere(ConvMseAe(), StrideTwoTranspose) == 2
  {
    StageCounts(StrideTwoTranspose, 0, 1, 0);
  }

  /** No convolution strides. */
  lemma ConvMseAeUnstridedConvolutions()
    ensures CountWhere(ConvMseAe(), StridedConvolution) == 0
  {
    StageCounts(StridedConvolution, 0, 0, 0);
  }

  /** Counting over the autoencoder stage by stage: `encoder` per encoder stage, `decoder` per
      decoder stage, `output` in the output stage. */
  lemma StageCounts(q: Layer -> bool, encoder: nat, decoder: nat, output: nat)
    requires CountWhere([Convolution(3, 3, 1, 32, 1, Same), ReLU, Pooling(Max, 2, 2, Same)], q) == encoder
    requires CountWhere([Convolution(3, 3, 32, 32, 1, Same), ReLU, Pooling(Max, 2, 2, Same)], q) == encoder
    requires CountWhere([ConvolutionTranspose(3, 3, 32, 32, 2, Same), ReLU], q) == decoder
    requires CountWhere([Convolution(3, 3, 32, 1, 1, Same), Sigmoid], q) == output
    ensures CountWhere(ConvMseAe(), q) == 2 * encoder + 2 * decoder + output
  {
    ConvMseAeStages();
    var a := [Convolution(3, 3, 1, 32, 1, Same), ReLU, Pooling(Max, 2, 2, Same)];
    var b := [Convolution(3, 3, 32, 32, 1, Same), ReLU, Pooling(Max, 2, 2, Same)];
    var c := [ConvolutionTranspose(3, 3, 32, 32, 2, Same), ReLU];
    var e := [Convolution(3, 3, 32, 1, 1, Same), Sigmoid];
    CountWhereAppend(a, b, q);
    CountWhereAppend(a + b, c, q);
    CountWhereAppend(a + b + c, c, q);
    CountWhereAppend(a + b + c + c, e, q);
  }

  /** Filtering distributes over concatenation. */
  lemma {:induction false} ParametricLayersAppend(a: seq<Layer>, b: seq<Layer>)
    ensures ParametricLayers(a + b) == ParametricLayers(a) + ParametricLayers(b)
    decreases |a|
  {
    if |a| > 0 {
      assert (a + b)[1..] == a[1..] + b;
      ParametricLayersAppend(a[1..], b);
    } else {
      assert a + b == b;
    }
  }

  /** Counting distributes over concatenation. */
  lemma {:induction false} CountWhereAppend(a: seq<Layer>, b: seq<Layer>, p: Layer -> bool)
    ensures CountWhere(a + b, p) == CountWhere(a, p) + CountWhere(b, p)
    decreases |a|
  {
    if |a| > 0 {
      assert (a + b)[1..] == a[1..] + b;
      CountWhereAppend(a[1..], b, p);
    } else {
      assert a + b == b;
    }
  }

  /** What a run of `runAutoencoder` did: the compiled network and its training iterations. */
  datatype Run = Run(compiled: Compiled, dataset: Dataset, iterations: seq<Iteration>)

  /** The body of `runAutoencoder` for a buildable layer list: builds the dataset, and with it
      the network, compiles it with Adam and MSE, then trains it (up to 300 iterations, the run ending at the
      first one that traps; the default epoch and batch size arguments are ignored). The global counter and buffer identities enter
      and leave compilation. */
  method RunNetwork(files: MnistFiles, layers: seq<Layer>, deviceAvailable: bool, queueCreated: bool, gpu: Gpu,
                    num: int, nextId: BufferId, draws: seq<seq<Draw>>)
    returns (r: Result<Run, Fault>)
    requires AllBuildable(layers) && Glorot(gpu.generator)
    requires |draws| >= TrainingIterations
    requires forall i :: 0 <= i < TrainingIterations ==> DefaultBatchSize <= |draws[i]|
    ensures r.Success? <==> files.Complete()
    ensures r.Failure? ==> r.error == NilUnwrapTrap
    ensures r.Success? ==>
      && r.value.dataset == CreateMnistDataset(files).value
      && r.value.compiled == Compile(WithLayers(deviceAvailable, queueCreated, layers), Adam, MSE, num, gpu, nextId)
      && r.value.compiled.model.batchSize == DefaultBatchSize
      && TrainedUntilTrap(r.value.compiled.model, r.value.dataset, draws, r.value.iterations)
    ensures r.Success? && !(deviceAvailable && queueCreated) ==>
      |r.value.iterations| == TrainingIterations && forall i :: 0 <= i < |r.value.iterations| ==> r.value.iterations[i] == NoCommandBuffer
  {
    var dataset := CreateMnistDataset(files);
    if dataset.Failure? {
      return Failure(dataset.error);
    }
    var network := WithLayers(deviceAvailable, queueCreated, layers);
    var compiled := Compile(network, Adam, MSE, num, gpu, nextId);
    assert compiled.model.batchSize == DefaultBatchSize;
    assert !(deviceAvailable && queueCreated) ==> compiled.model == network;
    var iterations := Train(compiled.model, dataset.value, DefaultEpochs, DefaultBatchSize, draws);
    assert TrainedUntilTrap(compiled.model, dataset.value, draws, iterations);
    r := Success(Run(compiled, dataset.value, iterations));
  }

  /** `runAutoencoder`: the run over the autoencoder's layer list. With a device and a queue,
      compilation builds its five parameter stores twice, once per graph. */
  method RunAutoencoder(files: MnistFiles, deviceAvailable: bool, queueCreated: bool, gpu: Gpu, num: int,
                        nextId: BufferId, draws: seq<seq<Draw>>)
    returns (r: Result<Run, Fault>)
    requires Glorot(gpu.generator)
    requires |draws| >= TrainingIterations
    requires forall i :: 0 <= i < TrainingIterations ==> DefaultBatchSize <= |draws[i]|
    ensures r.Success? <==> files.Complete()
    ensures r.Failure? ==> r.error == NilUnwrapTrap
    ensures r.Success? ==>
      && r.value.compiled == Compile(WithLayers(deviceAvailable, queueCreated, ConvMseAe()), Adam, MSE, num, gpu, nextId)
      && r.value.compiled.model.batchSize == DefaultBatchSize
      && TrainedUntilTrap(r.value.compiled.model, r.value.dataset, draws, r.value.iterations)
    ensures r.Success? && !(deviceAvailable && queueCreated) ==>
      |r.value.iterations| == TrainingIterations && forall i :: 0 <= i < |r.value.iterations| ==> r.value.iterations[i] == NoCommandBuffer
    ensures r.Success? && deviceAvailable && queueCreated ==>
      && r.value.compiled.num == num + 10
      && r.value.compiled.nextId == nextId + 10 * BuffersPerInit
  {
    ConvMseAeBuildable();
    ConvMseAeParametricCount();
    r := RunNetwork(files, ConvMseAe(), deviceAvailable, queueCreated, gpu, num, nextId, draws);
  }
}
