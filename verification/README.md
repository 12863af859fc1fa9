# metal-ios-training: a Dafny model of the iVAE engine and the MNIST autoencoder

This project models the logic of the iVAE Swift package and the BetaTCVAE demo app that sits
around the Metal Performance Shaders calls:

- the random minibatch sampler over MNIST's fixed-record byte layout (`Dataset`);
- the per-layer parameter store (`DataSource`): its shapes, initial state, hyperparameters,
  buffer identities and keyed serialisation;
- layer dispatch (`Layer.createNode`), including the global `num` counter;
- graph assembly, training iteration counts and evaluation scoring (`Sequential`);
- the tagged `DataSample` codec (`DataLoader.swift`);
- the MNIST wiring and the convolutional autoencoder (`BetaTCVAE/Model.swift`).

The model keeps the behaviour the code has, defects included. Each defect is stated as a lemma:

- the bias buffer the optimizer writes is not the one the forward kernel reads;
- the keyed round trip loses the stride and the Adam time step;
- `trainEpoch` always force-unwraps nil;
- the evaluation reads labels past the end;
- the accuracy denominator is the test record count.

One Dafny module per source file:

| module | file |
|---|---|
| `Wrappers` | `Option`/`Result` with `:-` propagation |
| `Tensors` | bytes, images, reads through a raw pointer |
| `Coding` | a keyed `Codable` container and its typed decoders |
| `Datasets` | `iVAE/Sources/iVAE/Dataset.swift` |
| `DataSources` | `iVAE/Sources/iVAE/DataSource.swift` |
| `Layers` | `iVAE/Sources/iVAE/Layers.swift` |
| `SequentialModel` | `iVAE/Sources/iVAE/Sequential.swift` |
| `DataLoader` | `iVAE/Sources/iVAE/DataLoader.swift` |
| `Autoencoder` | `BetaTCVAE/Model.swift` |

Modelling choices:

- **Randomness.** Randomness is a parameter:
  - The sampler takes one `Draw` per slot: the `arc4random()` word, and whether
    `MPSCNNLossDataDescriptor` returned a value.
  - `MPSMatrixRandomMTGP32` is seeded with the constant 0, so it is a function `Gpu.generator`
    of the vector length and of `in + out`. The predicate `Glorot` constrains it to the range
    `[-sqrt(6/(in+out)), sqrt(6/(in+out))]`.
  - `Gpu.stale` is whatever a freshly allocated Metal buffer holds.
- **Buffers.** A buffer is a value with an allocation identity, so aliasing between buffers is
  visible.
- **Traps.** Swift traps and out-of-range raw-pointer reads end a run with a `Fault` or `Trap`
  value. They are not preconditions. The traps covered are:
  - a negative `0..<n`;
  - an array index out of range;
  - a force unwrap of nil.
- **Layer count.** `createConvMSEAE` (Model.swift:113-126) lists 12 layers.
- **Accuracy.** `evaluateTestSet` prints `gCorrect / (N / 100)`, where N is the test record
  count, and scores `batchSize` images per record, so `PerfectNetworkAccuracy` reports a perfect
  network at `100 * batchSize` per cent.

## Model

| member | source | states |
|---|---|---|
| Datasets.RecordIndexBounds | iVAE/Sources/iVAE/Dataset.swift:68-69 | For the index computed with an exact quotient (see Left out): it lies in `0..N`, is below N exactly when the random word is not `UINT32_MAX`, and the top word selects N, one past the last record. |
| Datasets.RecordIndex | iVAE/Sources/iVAE/Dataset.swift:68-69 | `Int(...)` truncates toward zero: for a non-negative product `p = random·N` the index r satisfies `r·UINT32_MAX ≤ p < (r+1)·UINT32_MAX`, and for a negative product the mirror bound holds. |
| Datasets.TrainImage | iVAE/Sources/iVAE/Dataset.swift:80-83 | Record i's image is the `imageSize²` bytes from `imageMetadataSize + i·imageSize²`, shaped `imageSize × imageSize × 1`. The read succeeds iff `imageMetadataSize + (i+1)·imageSize²` fits the image data; otherwise it faults at that offset. |
| Datasets.TrainLabel | iVAE/Sources/iVAE/Dataset.swift:87 | Record i's label is the one byte at `labelMetadataSize + i`. The read succeeds iff that offset is inside the label data. |
| Datasets.OneHot | iVAE/Sources/iVAE/Dataset.swift:88-89 | The target has 12 slots: 1 at the label and 0 everywhere else. It is defined iff the label is below 12; otherwise the write traps. |
| Datasets.SampleRecord | iVAE/Sources/iVAE/Dataset.swift:80-94 | A sample succeeds iff the image, the label and the one-hot target all do. Its loss labels are 1 × 1 × 12 over that target. |
| Datasets.GetRandomTrainingBatch | iVAE/Sources/iVAE/Dataset.swift:64-67 | A negative batch size traps on the range. A zero batch size returns no images and leaves the loss states untouched. |
| Datasets.LoopCompletes | iVAE/Sources/iVAE/Dataset.swift:67-96 | When every draw reads its record and builds its descriptor, each draw appends its image and its loss state, in draw order, after what was there. |
| Datasets.FullBatch | iVAE/Sources/iVAE/Dataset.swift:67-97 | When every descriptor succeeds, exactly `batchSize` images are returned and exactly `batchSize` loss states appended, with image k paired to loss state k. The caller's earlier loss states are kept. |
| Datasets.LoopStopsAtMissingDescriptor | iVAE/Sources/iVAE/Dataset.swift:91-95 | A descriptor failure at draw k returns an empty image list. The loss states of the k earlier draws stay appended. |
| Datasets.DescriptorFailureKeepsEarlierLossStates | iVAE/Sources/iVAE/Dataset.swift:91-95 | For the public call: a descriptor failure in slot k returns `[]`. `lossStateBatch` then holds the old states plus exactly the k earlier slots' loss states, in order. |
| Datasets.LoopStopsAtFault | iVAE/Sources/iVAE/Dataset.swift:80-89 | An unreadable record, or a label of 12 or more, at draw k stops the loop with that fault. |
| Datasets.FaultStopsSampling | iVAE/Sources/iVAE/Dataset.swift:80-89 | For the public call: the first slot whose record cannot be read or encoded ends the call with that slot's fault. |
| Datasets.SampleLoop | iVAE/Sources/iVAE/Dataset.swift:67-96 | The loop only appends loss states: a finished loop keeps the caller's states as a prefix and adds at most one per draw. When it returns images, it returns one per draw after those already batched. |
| DataSources.ZeroFill | iVAE/Sources/iVAE/DataSource.swift:159-160 | `memset_pattern4` over n bytes zeroes the first n/4 floats and keeps the rest. It keeps the buffer's identity and length. |
| DataSources.Create | iVAE/Sources/iVAE/DataSource.swift:102-182 | Every vector has the shape the kernel implies: `in·kh·kw·out` weights and `out` biases. Momentum, velocity and bias are all zero. The weights are the generator's output, each with `w²·(in+out) ≤ 6`. The descriptor carries the given stride on both axes. Hyperparameters are 5e-5, 0.9, 0.999 and 1e-8, with time step 0. Nine fresh buffer identities are used, and the weight and bias pointers refer to the weight and bias vectors. |
| DataSources.CreateSplitsBias | iVAE/Sources/iVAE/DataSource.swift:153-165 | After `init`, the weights-and-biases state that `update` writes holds the weight buffer and the first bias allocation. That allocation is neither `biasTerms()` nor the bias vector, and it was never zero-filled: it holds stale memory. |
| DataSources.VectorRoundTrip | iVAE/Sources/iVAE/DataSource.swift:247-276 | Encoding `length/4` floats and decoding a `count·4`-byte buffer with a `length/4` vector gives back every float in order, in a new buffer, and the vector length. |
| DataSources.EncodeScalarLookups | iVAE/Sources/iVAE/DataSource.swift:53-56 | `encode(to:)` writes the name, beta1, beta2 and epsilon under their own keys. |
| DataSources.EncodeShapeLookups | iVAE/Sources/iVAE/DataSource.swift:57-66 | It writes the kernel size as a `CGSize`, the two channel counts and the learning rate under their own keys. |
| DataSources.EncodeParameterLookups | iVAE/Sources/iVAE/DataSource.swift:60-62 | It writes the weight, bias and weight-momentum vectors as their buffers' floats. |
| DataSources.EncodeStateLookups | iVAE/Sources/iVAE/DataSource.swift:63-65 | It writes the bias-momentum and both velocity vectors as their buffers' floats. |
| DataSources.EncodeBuffer | iVAE/Sources/iVAE/DataSource.swift:247-256 | Encoding a buffer writes all of its `length/4` floats, in order. |
| DataSources.DecodeVector | iVAE/Sources/iVAE/DataSource.swift:264-276 | Decoding succeeds iff the key holds a float array. The vector then lies over a new buffer with the given identity holding exactly those floats, and its length is their count (`count·4` bytes over 4). |
| DataSources.Restore | iVAE/Sources/iVAE/DataSource.swift:69-100 | `init(from:)` succeeds iff every scalar key holds a value of its decoded type and all six vector keys hold float arrays. On success it allocates the six buffers `nextId ..< nextId+6` in decoding order. `weights()`, `biasTerms()` and the state `update` writes into and returns then all refer to the decoded weight and bias buffers. The stride is 1 and the time step 0. |
| DataSources.RestoreEncodeRoundTrip | iVAE/Sources/iVAE/DataSource.swift:51-100 | `init(from:)` of `encode(to:)` succeeds. It restores name, label, hyperparameters, kernel shape, channel counts and all six vectors. Stride becomes 1 and the time step 0. `weights()`, `biasTerms()` and the weights-and-biases state then all refer to the decoded weight and bias buffers. |
| DataSources.EncodeDropsStrideAndTimeStep | iVAE/Sources/iVAE/DataSource.swift:51-67 | The encoding is the same whatever the stride and time step. A store with stride other than 1 is therefore restored with a different stride. |
| Layers.Policy | iVAE/Sources/iVAE/Layers.swift:21-28 | `.same` maps to the size-same policy and `.valid` to valid-only, and only those. |
| Layers.CreateNode | iVAE/Sources/iVAE/Layers.swift:53-198 | Each layer kind yields its node kind with its own configuration. Convolution, ConvolutionTranspose and Dense build a fresh store from their kernel and stride, named "Conv()", "ConvT()" or "Dense()", with the default hyperparameters and an update state holding the first, stale bias allocation rather than the bias vector; the first two carry the padding policy. Pooling dispatches on mode. ReLU has a = 0, Flatten reshapes to 1 × 1 × width, and Dropout passes its probability through. `num` advances by one exactly for the three parametric kinds. |
| Layers.LabelsIgnoreCounter | iVAE/Sources/iVAE/Layers.swift:60-123 | Two stores of the same kind have the same label, whatever `num` was. The interpolated `num += 1` is Void. |
| SequentialModel.New | iVAE/Sources/iVAE/Sequential.swift:20-31 | A new model has epochs 1, batch size 40, no layers and no graphs. It has a queue only if it has a device. |
| SequentialModel.WithLayers | iVAE/Sources/iVAE/Sequential.swift:33-36 | `init(layers:)` holds the given list as is. It has the defaults of `init()`: epochs 1, batch size 40 and no graphs, with a queue only if there is a device. |
| SequentialModel.Add | iVAE/Sources/iVAE/Sequential.swift:38-40 | The layer goes last, earlier layers keep their order, and nothing else changes. |
| SequentialModel.BuildChain | iVAE/Sources/iVAE/Sequential.swift:64-68 | One node per layer, in list order, each realizing its layer. `num` advances by the parametric count. Exactly 9 buffers are allocated per parametric layer, all inside the chain's identity range. |
| SequentialModel.TrainingGraph | iVAE/Sources/iVAE/Sequential.swift:61-74 | The layers in order, then exactly one MSE loss node. |
| SequentialModel.InferenceGraph | iVAE/Sources/iVAE/Sequential.swift:76-85 | The layers in order, then exactly one softmax node. |
| SequentialModel.Compile | iVAE/Sources/iVAE/Sequential.swift:42-59 | Without a device or queue nothing changes. Otherwise both graphs are set and nothing else changes. Every layer is instantiated once per graph, so `num` grows by twice the parametric count and twice as many buffers are allocated. |
| SequentialModel.CompileDuplicatesStores | iVAE/Sources/iVAE/Sequential.swift:42-59 | For each parametric layer the training and inference stores have the same descriptor and initial weights. Their buffers are disjoint: every training buffer precedes every inference buffer. |
| SequentialModel.TrainIteration | iVAE/Sources/iVAE/Sequential.swift:154-204 | Without a device or queue the result is nil, and only then. A committed iteration carries its own number, the total and exactly `batchSize` loss images. |
| SequentialModel.CommittedIterationIsFull | iVAE/Sources/iVAE/Sequential.swift:165-182 | A committed iteration has `batchSize` source images and `batchSize` loss images. Each pair is the record drawn for that slot. |
| SequentialModel.DescriptorFailureTrapsIteration | iVAE/Sources/iVAE/Sequential.swift:170-182 | A descriptor failure in slot k < batchSize leaves k loss states, so `lossStateBatch[k]` traps. |
| SequentialModel.Train | iVAE/Sources/iVAE/Sequential.swift:146-152 | The run holds the iterations that started, numbered from 0 out of 300, at the model's own batch size. No entry but the last traps. It is all 300 iterations when none traps, and ends at the first trap otherwise. Without a device or queue it is 300 nil results. The `epoch` and `batchSize` arguments are ignored. |
| SequentialModel.EpochRun | iVAE/Sources/iVAE/Sequential.swift:226-233 | The first trapping iteration ends the run with its fault. Otherwise `latestCommandBuffer!` traps when the loop never ran or the last iteration returned nil (no device or queue). It succeeds exactly when at least one iteration ran, there is a device and a queue and no iteration trapped, and then it gives the last iteration. |
| SequentialModel.TrainEpoch | iVAE/Sources/iVAE/Sequential.swift:226-233 | With its constant of 0 iterations, `trainEpoch` always traps. |
| SequentialModel.TrainEpochs | iVAE/Sources/iVAE/Sequential.swift:217-224 | `train(trainSet:evaluationSet:)` finishes iff epochs is 0. It traps on the unwrap for epochs ≥ 1 and on the range for negative epochs. |
| SequentialModel.FreshModelTrainingTraps | iVAE/Sources/iVAE/Sequential.swift:217-233 | On a freshly built model (one epoch) `train(trainSet:evaluationSet:)` always traps. |
| SequentialModel.ScanIsFirstMaximum | iVAE/Sources/iVAE/Sequential.swift:286-302 | The strict-`>` scan from (-1, -100) gives -1 iff no value exceeds -100. Otherwise it gives the first position of the maximum. |
| SequentialModel.Argmax | iVAE/Sources/iVAE/Sequential.swift:286-302 | The index compared with the label is -1 or a position of the readback holding a value above -100. |
| SequentialModel.ArgmaxIsFirstMaximum | iVAE/Sources/iVAE/Sequential.swift:286-302 | The same fact for the whole readback. |
| SequentialModel.ArgmaxOfOneHot | iVAE/Sources/iVAE/Sequential.swift:286-303 | The argmax of a 12-slot training target is its class. |
| SequentialModel.ScanRow | iVAE/Sources/iVAE/Sequential.swift:293-300 | The inner loop over one row extends the flat scan by that row. |
| SequentialModel.ScanChannel | iVAE/Sources/iVAE/Sequential.swift:292-301 | The middle loop over one channel extends the flat scan by that channel. |
| SequentialModel.ArgmaxOfReadback | iVAE/Sources/iVAE/Sequential.swift:284-302 | The triple loop over `(i·h + j)·w + k` computes the flat argmax. |
| SequentialModel.EvaluationImage | iVAE/Sources/iVAE/Sequential.swift:265-267 | Step c, slot idx reads `imageSize²` bytes from `imageMetadataSize + imageSize²·c + idx`; the slot is not scaled. The read succeeds iff that window fits the test images. |
| SequentialModel.EvaluationLabel | iVAE/Sources/iVAE/Sequential.swift:282 | Step c, slot idx reads the label byte at `labelMetadataSize + c + idx`, and succeeds iff it lies inside the test labels. |
| SequentialModel.StepInputs | iVAE/Sources/iVAE/Sequential.swift:265-268 | The step's `batchSize` inputs, each the image read for its slot. |
| SequentialModel.ScoreFrom | iVAE/Sources/iVAE/Sequential.swift:281-307 | Scoring completes iff every slot's label byte is inside the label data. Then every output is counted once in `gDone`, and `gCorrect` grows by exactly the number of outputs whose argmax equals their slot's label byte. |
| SequentialModel.HitsAllRight | iVAE/Sources/iVAE/Sequential.swift:303-306 | When every output's argmax equals its label byte, every output is a hit. |
| SequentialModel.EvaluationStep | iVAE/Sources/iVAE/Sequential.swift:262-307 | A step completes iff every slot's image and, with an inference graph, every slot's label can be read. It then scores `batchSize` images with an inference graph and none without one, and adds exactly the step's hits to `gCorrect`. |
| SequentialModel.StepAllRight | iVAE/Sources/iVAE/Sequential.swift:303-306 | A step of an always-right network hits every image it scores. |
| SequentialModel.EvaluateFrom | iVAE/Sources/iVAE/Sequential.swift:260-312 | A report after the remaining steps has scored `batchSize` images (0 without a graph) per step. `gCorrect` has grown by exactly the hits of those steps. |
| SequentialModel.EvaluateFromReads | iVAE/Sources/iVAE/Sequential.swift:260-312 | A completed run wrote every slot's image of every remaining step and, with a graph, read every slot's label. |
| SequentialModel.EvaluateFromAllRight | iVAE/Sources/iVAE/Sequential.swift:260-312 | An always-right network hits every image scored in the remaining steps. |
| SequentialModel.EvaluateTestSet | iVAE/Sources/iVAE/Sequential.swift:235-318 | A negative batch size traps on the slot range. Without a device, a positive batch size traps on the `gDevice` unwrap. Otherwise a missing queue returns with nothing reported. A report has `N` test images, `gDone = N·batchSize` (0 without an inference graph), and `gCorrect` equal to the number of hits over all steps. |
| SequentialModel.EvaluationCounts | iVAE/Sources/iVAE/Sequential.swift:235-312 | A completed evaluation has `0 ≤ gCorrect ≤ gDone`, with equality for an always-right network. |
| SequentialModel.CompletedEvaluationReadLabels | iVAE/Sources/iVAE/Sequential.swift:282 | A completed evaluation read the label at `labelMetadataSize + (N-1) + (batchSize-1)`, so the label data reaches that far. |
| SequentialModel.EvaluationOverrunsLabels | iVAE/Sources/iVAE/Sequential.swift:260-282 | With exactly N label bytes after the header and a batch of 2 or more, the evaluation never completes: the last step reads past the labels. |
| SequentialModel.ReportedAccuracy | iVAE/Sources/iVAE/Sequential.swift:317 | The printed accuracy times N equals 100·gCorrect; the denominator is the record count N, not gDone. It has no finite value when N = 0. |
| SequentialModel.PerfectNetworkAccuracy | iVAE/Sources/iVAE/Sequential.swift:303-317 | A network that is always right is reported at 100·batchSize per cent, not 100. |
| SequentialModel.AccuracyOfFullTally | iVAE/Sources/iVAE/Sequential.swift:317 | A tally of k hits per test record is reported as 100·k per cent. |
| DataLoader.RawValue | iVAE/Sources/iVAE/DataLoader.swift:13-16 | `image` has raw value 0 and `bytes` raw value 1, and only they. |
| DataLoader.FromRaw | iVAE/Sources/iVAE/DataLoader.swift:13-16 | `DataType(rawValue:)` is defined exactly on 0 and 1 and inverts the raw value there. |
| DataLoader.RawValueRoundTrip | iVAE/Sources/iVAE/DataLoader.swift:13-16 | Every case survives its raw value. |
| DataLoader.FromImage | iVAE/Sources/iVAE/DataLoader.swift:71-76 | `init(image:label:)` gives type image, the label, the image and its texture, and no bytes. |
| DataLoader.FromBytes | iVAE/Sources/iVAE/DataLoader.swift:78-82 | `init(bytes:label:)` gives type bytes, the bytes and the label, and no image or texture. |
| DataLoader.Encode | iVAE/Sources/iVAE/DataLoader.swift:44-53 | `label` and `type` are always written. `image` is written iff the type is image: the PNG rendering, or null when there is no image. `bytes` is written iff the type is bytes, holding the bytes. A failed PNG rendering or missing bytes traps, and only those. |
| DataLoader.Decode | iVAE/Sources/iVAE/DataLoader.swift:55-69 | Decoding succeeds iff `label` is an int, `type` a raw value and the type's payload is present. The fields come back as written, the texture is derived from the image, and the other payload stays nil. |
| DataLoader.BytesRoundTrip | iVAE/Sources/iVAE/DataLoader.swift:44-69 | Decoding a bytes sample's encoding gives back the same sample: label, type and bytes. |
| DataLoader.ImageRoundTrip | iVAE/Sources/iVAE/DataLoader.swift:44-69 | An image sample comes back with the same label, type and image, and its texture. |
| DataLoader.MissingImageDoesNotDecode | iVAE/Sources/iVAE/DataLoader.swift:44-61 | An image-typed sample without an image encodes a null `image`, which fails to decode. |
| DataLoader.ToMpsImage | iVAE/Sources/iVAE/DataLoader.swift:25-35 | An image sample gives its texture with one channel. A bytes sample gives a 1 × 1 image with `bytes.count` channels holding the bytes. A missing texture or missing bytes traps. |
| DataLoader.InitialisedSamplesConvert | iVAE/Sources/iVAE/DataLoader.swift:25-82 | Samples from either initialiser convert without trapping. |
| Autoencoder.RecordCount | BetaTCVAE/Model.swift:70-76 | The record count is the label file's byte count minus 8, and -8 when the file is missing. |
| Autoencoder.CreateMnistDataset | BetaTCVAE/Model.swift:70-108 | The dataset exists iff all four files do; otherwise a force unwrap traps. It has image size 28, image header 16, label header 8, and the record counts derived from the label files. |
| Autoencoder.MnistRecordsReadable | BetaTCVAE/Model.swift:72-108 | On well-formed IDX training files of n records, the derived count is n and every record below n is readable. |
| Autoencoder.ConvMseAe | BetaTCVAE/Model.swift:111-128 | The list has 12 layers and ends with Sigmoid. |
| Autoencoder.ConvMseAeChannels | BetaTCVAE/Model.swift:113-125 | The parametric layers, in order, are the five convolutions. |
| Autoencoder.ConvMseAeChannelsChain | BetaTCVAE/Model.swift:113-125 | Each parametric layer's input channels equal the previous one's output: 1→32→32→32→32→1. |
| Autoencoder.ConvMseAeParametricCount | BetaTCVAE/Model.swift:113-125 | Five layers own a parameter store. |
| Autoencoder.ConvMseAeBuildable | BetaTCVAE/Model.swift:113-125 | Every store's kernel and channel counts are positive. |
| Autoencoder.ConvMseAePools | BetaTCVAE/Model.swift:113-125 | Exactly two layers are stride-2 max pools. |
| Autoencoder.ConvMseAeTransposes | BetaTCVAE/Model.swift:113-125 | Exactly two layers are stride-2 transposed convolutions. |
| Autoencoder.ConvMseAeUnstridedConvolutions | BetaTCVAE/Model.swift:113-125 | No convolution has a stride other than 1. |
| Autoencoder.RunNetwork | BetaTCVAE/Model.swift:131-137 | The run happens iff the dataset could be built. It then compiles the model with Adam and MSE and trains it, ending at the first trapping iteration or after 300. Without a device or queue, all 300 iterations return nil. |
| Autoencoder.RunAutoencoder | BetaTCVAE/Model.swift:131-137 | The same run over the autoencoder. With a device and queue, compilation advances `num` by 10 and allocates 10 stores' worth of buffers (five per graph). |

## Left out

- GPU execution is left out: what the MPS nodes compute, `MPSNNGraph` construction, `encodeBatch`, `MPSImageBatchSynchronize` and command buffers. The Metal calls are foreign code. Nodes are tags with their configuration, and the inference graph is a function parameter `Network`.
- The Adam update arithmetic is left out. `update` returns the captured weights-and-biases state, and its contents are not modelled, because the update runs inside `MPSNNOptimizerAdam`.
- Float32 and Double rounding are left out: hyperparameters, weights and scores are reals.
  - Datasets.RecordIndex: the index is the exact truncation of `random·N / UINT32_MAX`. In Float32, `Float(UINT32_MAX)` rounds to 2^32, and so does `Float(w)` for every word `w ≥ 2^32 − 128`. The source therefore selects index N, one past the last record, for those 128 top words, not only for the top one. Near other record boundaries the rounded index can also differ.
  - SequentialModel.ReportedAccuracy: exact real division, not Float32.
- The double-buffering semaphore and completion handlers are left out, because they concern concurrency. Training and evaluation run sequentially here. Every completion handler is taken to have run before the printed accuracy is read.
- `lossReduceSumAcrossBatch`, the loss print and the timing are left out. They are floating-point reporting only.
- `MPSNNGraph(device:resultImage:)` returning nil, and `lossExitPoints!`, are left out: each graph built is taken to exist. The model does not know when Metal refuses a graph.
- `getOutputSize` and `getParameters` are left out; they only print diagnostics.
- Network download, gunzip and bundle loading are left out as I/O. The four files enter as `Option` contents.
- PNG, base64, CoreImage, vImage and textures are left out. A PNG rendering is an opaque `PngValue`, and a texture is the opaque `Texture` of its image. The traps on invalid base64 or PNG data during decoding are not modelled.
- An empty `Data` having no base address is not modelled; every present file yields a pointer.
- The SwiftUI view (`BetaTCVAE/ContentView.swift`) is left out.
- `LossFunction.swift` appears only as the terminal MSE tag of the training chain.
- DataSources.Create: the weights the seeded generator writes are constrained only by `Glorot`. The MTGP32 sequence itself is not modelled.
- Datasets.GetRandomTrainingBatch: its own contract covers only the degenerate batch sizes. The general behaviour is stated by `FullBatch`, `DescriptorFailureKeepsEarlierLossStates` and `FaultStopsSampling`, each under its own hypothesis about the draws.
- DataSources.Restore: the force unwraps of `MTLCreateSystemDefaultDevice()!` and `makeCommandQueue()!` in `init(from:)` (DataSource.swift:72-73), and of `makeBuffer(...)!` in the buffer decoder (DataSource.swift:267-268), are not modelled. A restore is taken to run with a device that allocates.
- DataSources.Create, Layers.CreateNode, SequentialModel.BuildChain and SequentialModel.Compile require every kernel and channel count to be positive (`Buildable`). The source passes any `Int` to `MPSCNNConvolutionDescriptor` and `MPSVectorDescriptor`. Non-positive shapes are excluded because Metal's behaviour on them is not modelled.
- `inferenceGraph?.reloadFromDataSources()` at the start of `evaluateTestSet` (Sequential.swift:241) is left out. It copies trained weights inside MPS, and the inference graph is the parameter `Network` here.
- The accuracy print `print("Test Set Accuracy = %f %%", x)` (Sequential.swift:317) is not a formatted print: Swift prints the format string literally, followed by the value. The model states only the value, in `ReportedAccuracy`.
