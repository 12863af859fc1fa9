/** The fixed-record byte layout of a dataset and the random minibatch sampler over it
    (`Dataset` and `getRandomTrainingBatch`). */
module Datasets {
  import opened Wrappers
  import opened Tensors

  /** Number of slots in the one-hot training target. */
  const TargetSlots := 12

  /** `UINT32_MAX`, the largest word `arc4random()` returns. */
  const RandomMax := 0xFFFF_FFFF

  type RandomWord = x: int | 0 <= x <= RandomMax

  /** Why a run stops before it returns: a Swift runtime trap or an out-of-range read
      through a raw pointer (undefined behaviour, which the model refuses to continue past). */
  datatype Fault =
    | RangeTrap(upperBound: int)          // `0..<n` with n < 0
    | ImageReadOutOfRange(offset: int)    // `writeBytes` from a pointer whose record leaves the image data
    | LabelReadOutOfRange(offset: int)    // label byte outside the label data
    | LabelIndexTrap(value: int)          // `labelsBuffer[label]` with label >= 12
    | LossStateIndexTrap(index: int)      // `lossStateBatch[i]` past the end
    | NilUnwrapTrap                       // a force unwrap of nil

  /** Both partitions of a dataset with their layout. Each byte count of the source
      (`sizeTrainLabels`, ...) is the length of the corresponding region. */
  datatype Dataset = Dataset(
    totalNumberOfTrainImages: int,
    trainImages: seq<Byte>,
    trainLabels: seq<Byte>,
    totalNumberOfTestImages: int,
    testImages: seq<Byte>,
    testLabels: seq<Byte>,
    imageSize: nat,
    imageMetadataSize: nat,
    labelMetadataSize: nat)
  {
    /** Bytes per image record: one byte per pixel. */
    function RecordBytes(): nat {
      imageSize * imageSize
    }

    /** Offset of record `i`'s image in the training image data. */
    function ImageOffset(i: int): int {
      imageMetadataSize + i * RecordBytes()
    }

    /** Offset of record `i`'s label byte in the training label data. */
    function LabelOffset(i: int): int {
      labelMetadataSize + i
    }
  }

  /** `Int(Float(random) / Float(UINT32_MAX) * Float(n))`: Swift's `Int(_:)` truncates toward zero. */
  function RecordIndex(random: RandomWord, recordCount: int): (r: int)
    ensures var product := random * recordCount;
      product >= 0 ==> r * RandomMax <= product < r * RandomMax + RandomMax
    ensures var product := random * recordCount;
      product < 0 ==> r * RandomMax - RandomMax < product <= r * RandomMax
  {
    var product := random * recordCount;
    if product >= 0 then product / RandomMax else -((-product) / RandomMax)
  }

  /** Floor division by a positive divisor stays below `n` exactly when the dividend does
      not reach `n` times the divisor. */
  lemma DivBelow(a: int, b: int, n: int)
    requires a >= 0 && b > 0
    ensures a / b < n <==> a < n * b
  {
    var q := a / b;
    assert a == q * b + a % b && 0 <= a % b < b;
    if q < n {
      assert q + 1 <= n;
      assert (q + 1) * b <= n * b;
    } else {
      assert q * b >= n * b;
    }
  }

  /** Scaling by a positive count preserves strict order. */
  lemma ScaleStrict(a: int, b: int, n: int)
    requires n >= 1
    ensures a < b <==> a * n < b * n
  {
    assert b * n - a * n == (b - a) * n;
    if a < b {
      assert (b - a) * n >= 1 * n by {
        assert b - a >= 1;
      }
    } else {
      assert (a - b) * n >= 0;
    }
  }

  /** With the quotient taken exactly, a random word lands on a record exactly when it is not
      the top word; the top word selects index N, one past the last record. */
  lemma RecordIndexBounds(random: RandomWord, recordCount: int)
    requires recordCount >= 1
    ensures 0 <= RecordIndex(random, recordCount) <= recordCount
    ensures RecordIndex(random, recordCount) < recordCount <==> random < RandomMax
    ensures random == RandomMax ==> RecordIndex(random, recordCount) == recordCount
  {
    var product := random * recordCount;
    assert product >= 0;
    assert RecordIndex(random, recordCount) == product / RandomMax;
    ScaleStrict(random, RandomMax, recordCount);
    ScaleStrict(random, RandomMax + 1, recordCount);
    assert RandomMax * recordCount == recordCount * RandomMax;
    assert (RandomMax + 1) * recordCount == (recordCount + 1) * RandomMax - RandomMax + recordCount;
    DivBelow(product, RandomMax, recordCount);
    DivBelow(product, RandomMax, recordCount + 1);
  }

  /** Record `i`'s image, `imageSize` x `imageSize` x 1 filled from its offset. */
  function TrainImage(ds: Dataset, i: int): (r: Result<Image, Fault>)
    ensures r.Success? <==>
      0 <= ds.imageMetadataSize + i * ds.RecordBytes() &&
      ds.imageMetadataSize + (i + 1) * ds.RecordBytes() <= |ds.trainImages|
    ensures r.Success? ==>
      r.value.width == ds.imageSize && r.value.height == ds.imageSize && r.value.featureChannels == 1 &&
      |r.value.pixels| == ds.RecordBytes() &&
      forall k :: 0 <= k < ds.RecordBytes() ==> r.value.pixels[k] == ds.trainImages[ds.ImageOffset(i) + k]
    ensures r.Failure? ==> r.error == ImageReadOutOfRange(ds.ImageOffset(i))
  {
    assert (i + 1) * ds.RecordBytes() == i * ds.RecordBytes() + ds.RecordBytes();
    match ReadBytes(ds.trainImages, ds.ImageOffset(i), ds.RecordBytes())
    case None => Failure(ImageReadOutOfRange(ds.ImageOffset(i)))
    case Some(pixels) => Success(Image(ds.imageSize, ds.imageSize, 1, pixels))
  }

  /** Record `i`'s label: the single byte at `labelMetadataSize + i`. */
  function TrainLabel(ds: Dataset, i: int): (r: Result<Byte, Fault>)
    ensures r.Success? <==> 0 <= ds.labelMetadataSize + i < |ds.trainLabels|
    ensures r.Success? ==> r.value == ds.trainLabels[ds.labelMetadataSize + i]
    ensures r.Failure? ==> r.error == LabelReadOutOfRange(ds.LabelOffset(i))
  {
    match ReadByte(ds.trainLabels, ds.LabelOffset(i))
    case None => Failure(LabelReadOutOfRange(ds.LabelOffset(i)))
    case Some(b) => Success(b)
  }

  /** The 12-slot target: zeros with a single one at `label`; writing slot `label` traps
      unless it is one of the 12 slots. */
  function OneHot(classIndex: int): (r: Result<seq<real>, Fault>)
    ensures r.Success? <==> 0 <= classIndex < TargetSlots
    ensures r.Success? ==> |r.value| == TargetSlots && r.value[classIndex] == 1.0
    ensures r.Success? ==> forall k :: 0 <= k < TargetSlots && k != classIndex ==> r.value[k] == 0.0
    ensures r.Failure? ==> r.error == LabelIndexTrap(classIndex)
  {
    if 0 <= classIndex < TargetSlots then
      Success(seq(TargetSlots, k => if k == classIndex then 1.0 else 0.0))
    else
      Failure(LabelIndexTrap(classIndex))
  }

  /** An `MPSCNNLossLabels` built from a loss-data descriptor: the descriptor's size and data. */
  datatype LossLabels = LossLabels(width: int, height: int, depth: int, labels: seq<real>)

  /** One drawn slot: the random word and whether the loss-data descriptor could be built. */
  datatype Draw = Draw(random: RandomWord, descriptorCreated: bool)

  /** One sampled record: its image and its loss state. */
  datatype Sample = Sample(image: Image, lossLabels: LossLabels)

  /** What the sampler hands back: the returned image list and the caller's loss-state list
      after the call (it is passed `inout`). */
  datatype SampleOutcome = SampleOutcome(images: seq<Image>, lossStates: seq<LossLabels>)

  /** Reads record `i` in the source's order: image bytes, label byte, one-hot target. */
  function SampleRecord(ds: Dataset, i: int): (r: Result<Sample, Fault>)
    ensures r.Success? ==> TrainImage(ds, i) == Success(r.value.image)
    ensures r.Success? ==>
      && TrainLabel(ds, i).Success?
      && TrainLabel(ds, i).value < TargetSlots
      && r.value.lossLabels == LossLabels(1, 1, TargetSlots, OneHot(TrainLabel(ds, i).value).value)
    ensures r.Success? <==>
      TrainImage(ds, i).Success? && TrainLabel(ds, i).Success? && TrainLabel(ds, i).value < TargetSlots
  {
    var image :- TrainImage(ds, i);
    var labelByte :- TrainLabel(ds, i);
    var target :- OneHot(labelByte);
    Success(Sample(image, LossLabels(1, 1, TargetSlots, target)))
  }

  /** The record a draw selects, read. */
  function SampleOf(ds: Dataset, d: Draw): Result<Sample, Fault> {
    SampleRecord(ds, RecordIndex(d.random, ds.totalNumberOfTrainImages))
  }

  /** The loop body of `getRandomTrainingBatch` over the remaining draws. */
  function SampleLoop(ds: Dataset, draws: seq<Draw>, batch: seq<Image>, lossStates: seq<LossLabels>)
    : (r: Result<SampleOutcome, Fault>)
    ensures r.Success? ==> |lossStates| <= |r.value.lossStates| <= |lossStates| + |draws|
    ensures r.Success? ==> r.value.lossStates[..|lossStates|] == lossStates
    ensures r.Success? && r.value.images != [] ==> |r.value.images| == |batch| + |draws|
    decreases |draws|
  {
    if |draws| == 0 then
      Success(SampleOutcome(batch, lossStates))
    else
      match SampleOf(ds, draws[0])
      case Failure(f) => Failure(f)
      case Success(s) =>
        if !draws[0].descriptorCreated then Success(SampleOutcome([], lossStates))
        else SampleLoop(ds, draws[1..], batch + [s.image], lossStates + [s.lossLabels])
  }

  /** `getRandomTrainingBatch(batchSize:lossStateBatch:)`: one draw per slot, the first
      `batchSize` of `draws`; `lossStates` is the incoming content of `lossStateBatch`. */
  function GetRandomTrainingBatch(ds: Dataset, batchSize: int, draws: seq<Draw>, lossStates: seq<LossLabels>)
    : (r: Result<SampleOutcome, Fault>)
    requires batchSize <= |draws|
    ensures batchSize < 0 ==> r == Failure(RangeTrap(batchSize))
    ensures batchSize == 0 ==> r == Success(SampleOutcome([], lossStates))
  {
    if batchSize < 0 then Failure(RangeTrap(batchSize))
    else SampleLoop(ds, draws[..batchSize], [], lossStates)
  }

  /** `images` is `prefix` followed by the images of the first `n` draws. */
  ghost predicate ImagesOf(ds: Dataset, draws: seq<Draw>, n: nat, prefix: seq<Image>, images: seq<Image>)
    requires n <= |draws|
  {
    && |images| == |prefix| + n
    && images[..|prefix|] == prefix
    && forall k :: 0 <= k < n ==>
         SampleOf(ds, draws[k]).Success? && images[|prefix| + k] == SampleOf(ds, draws[k]).value.image
  }

  /** `states` is `prefix` followed by the loss states of the first `n` draws. */
  ghost predicate LossStatesOf(ds: Dataset, draws: seq<Draw>, n: nat, prefix: seq<LossLabels>, states: seq<LossLabels>)
    requires n <= |draws|
  {
    && |states| == |prefix| + n
    && states[..|prefix|] == prefix
    && forall k :: 0 <= k < n ==>
         SampleOf(ds, draws[k]).Success? && states[|prefix| + k] == SampleOf(ds, draws[k]).value.lossLabels
  }

  /** Draws before `k` all read their record and build their descriptor. */
  ghost predicate CleanBefore(ds: Dataset, draws: seq<Draw>, k: nat)
    requires k <= |draws|
  {
    forall j :: 0 <= j < k ==> SampleOf(ds, draws[j]).Success? && draws[j].descriptorCreated
  }

  /** An unreadable record stops the loop with its fault, whatever came before it. */
  lemma {:induction false} LoopStopsAtFault(
    ds: Dataset, draws: seq<Draw>, batch: seq<Image>, lossStates: seq<LossLabels>, k: nat)
    requires k < |draws| && CleanBefore(ds, draws, k)
    requires SampleOf(ds, draws[k]).Failure?
    ensures SampleLoop(ds, draws, batch, lossStates) == Failure(SampleOf(ds, draws[k]).error)
    decreases k
  {
    if k > 0 {
      var s := SampleOf(ds, draws[0]).value;
      assert forall j :: 0 <= j < |draws| - 1 ==> draws[1..][j] == draws[j + 1];
      LoopStopsAtFault(ds, draws[1..], batch + [s.image], lossStates + [s.lossLabels], k - 1);
    }
  }

  /** A failed descriptor returns no images and keeps the loss states appended before it. */
  lemma {:induction false} LoopStopsAtMissingDescriptor(
    ds: Dataset, draws: seq<Draw>, batch: seq<Image>, lossStates: seq<LossLabels>, k: nat)
    requires k < |draws| && CleanBefore(ds, draws, k)
    requires SampleOf(ds, draws[k]).Success? && !draws[k].descriptorCreated
    ensures var r := SampleLoop(ds, draws, batch, lossStates);
      r.Success? && r.value.images == [] && LossStatesOf(ds, draws, k, lossStates, r.value.lossStates)
    decreases k
  {
    if k == 0 {
      assert lossStates[..|lossStates|] == lossStates;
    } else {
      var s := SampleOf(ds, draws[0]).value;
      var rest := draws[1..];
      var lossStates' := lossStates + [s.lossLabels];
      assert forall j :: 0 <= j < |draws| - 1 ==> rest[j] == draws[j + 1];
      LoopStopsAtMissingDescriptor(ds, rest, batch + [s.image], lossStates', k - 1);
      var r := SampleLoop(ds, draws, batch, lossStates);
      assert r == SampleLoop(ds, rest, batch + [s.image], lossStates');
      var st := r.value.lossStates;
      assert st[..|lossStates'|] == lossStates';
      assert st[..|lossStates|] == lossStates'[..|lossStates|] == lossStates;
      forall j | 0 <= j < k
        ensures st[|lossStates| + j] == SampleOf(ds, draws[j]).value.lossLabels
      {
        if j > 0 {
          assert st[|lossStates'| + (j - 1)] == SampleOf(ds, rest[j - 1]).value.lossLabels;
        }
      }
    }
  }

  /** With every record readable and every descriptor built, each draw adds one image and
      one loss state, paired by position. */
  lemma {:induction false} LoopCompletes(
    ds: Dataset, draws: seq<Draw>, batch: seq<Image>, lossStates: seq<LossLabels>)
    requires CleanBefore(ds, draws, |draws|)
    ensures var r := SampleLoop(ds, draws, batch, lossStates);
      && r.Success?
      && ImagesOf(ds, draws, |draws|, batch, r.value.images)
      && LossStatesOf(ds, draws, |draws|, lossStates, r.value.lossStates)
    decreases |draws|
  {
    if |draws| == 0 {
      assert batch[..|batch|] == batch;
      assert lossStates[..|lossStates|] == lossStates;
    } else {
      var s := SampleOf(ds, draws[0]).value;
      var rest := draws[1..];
      var batch' := batch + [s.image];
      var lossStates' := lossStates + [s.lossLabels];
      assert forall j :: 0 <= j < |draws| - 1 ==> rest[j] == draws[j + 1];
      LoopCompletes(ds, rest, batch', lossStates');
      assert SampleLoop(ds, draws, batch, lossStates) == SampleLoop(ds, rest, batch', lossStates');
      var r := SampleLoop(ds, draws, batch, lossStates).value;
      assert r.images[..|batch'|] == batch';
      assert r.images[..|batch|] == batch'[..|batch|] == batch;
      assert r.lossStates[..|lossStates'|] == lossStates';
      assert r.lossStates[..|lossStates|] == lossStates'[..|lossStates|] == lossStates;
      forall j | 0 <= j < |draws|
        ensures r.images[|batch| + j] == SampleOf(ds, draws[j]).value.image
        ensures r.lossStates[|lossStates| + j] == SampleOf(ds, draws[j]).value.lossLabels
      {
        if j > 0 {
          assert r.images[|batch'| + (j - 1)] == SampleOf(ds, rest[j - 1]).value.image;
          assert r.lossStates[|lossStates'| + (j - 1)] == SampleOf(ds, rest[j - 1]).value.lossLabels;
        }
      }
    }
  }

  /** When every drawn record is readable and every descriptor is built, the sampler returns
      exactly `batchSize` images, appends exactly `batchSize` loss states, and image k is
      paired with loss state k. */
  lemma FullBatch(ds: Dataset, batchSize: nat, draws: seq<Draw>, lossStates: seq<LossLabels>)
    requires batchSize <= |draws|
    requires forall k :: 0 <= k < batchSize ==> SampleOf(ds, draws[k]).Success? && draws[k].descriptorCreated
    ensures var r := GetRandomTrainingBatch(ds, batchSize, draws, lossStates);
      && r.Success?
      && |r.value.images| == batchSize
      && |r.value.lossStates| == |lossStates| + batchSize
      && r.value.lossStates[..|lossStates|] == lossStates
      && forall k :: 0 <= k < batchSize ==>
           r.value.images[k] == SampleOf(ds, draws[k]).value.image &&
           r.value.lossStates[|lossStates| + k] == SampleOf(ds, draws[k]).value.lossLabels
  {
    var window := draws[..batchSize];
    assert forall k :: 0 <= k < batchSize ==> window[k] == draws[k];
    LoopCompletes(ds, window, [], lossStates);
  }

  /** A descriptor failure on slot k returns an empty image list at once, while the loss
      states of the k earlier slots stay appended to the caller's list. */
  lemma DescriptorFailureKeepsEarlierLossStates(
    ds: Dataset, batchSize: nat, draws: seq<Draw>, lossStates: seq<LossLabels>, k: nat)
    requires k < batchSize <= |draws|
    requires forall j :: 0 <= j < k ==> SampleOf(ds, draws[j]).Success? && draws[j].descriptorCreated
    requires SampleOf(ds, draws[k]).Success? && !draws[k].descriptorCreated
    ensures var r := GetRandomTrainingBatch(ds, batchSize, draws, lossStates);
      && r.Success?
      && r.value.images == []
      && |r.value.lossStates| == |lossStates| + k
      && r.value.lossStates[..|lossStates|] == lossStates
      && forall j :: 0 <= j < k ==> r.value.lossStates[|lossStates| + j] == SampleOf(ds, draws[j]).value.lossLabels
  {
    var window := draws[..batchSize];
    assert forall j :: 0 <= j < batchSize ==> window[j] == draws[j];
    LoopStopsAtMissingDescriptor(ds, window, [], lossStates, k);
  }

  /** A slot whose record cannot be read stops the sampler with that fault, provided every
      earlier slot completed. */
  lemma FaultStopsSampling(ds: Dataset, batchSize: nat, draws: seq<Draw>, lossStates: seq<LossLabels>, k: nat)
    requires k < batchSize <= |draws|
    requires forall j :: 0 <= j < k ==> SampleOf(ds, draws[j]).Success? && draws[j].descriptorCreated
    requires SampleOf(ds, draws[k]).Failure?
    ensures GetRandomTrainingBatch(ds, batchSize, draws, lossStates) == Failure(SampleOf(ds, draws[k]).error)
  {
    var window := draws[..batchSize];
    assert forall j :: 0 <= j < batchSize ==> window[j] == draws[j];
    LoopStopsAtFault(ds, window, [], lossStates, k);
  }
}
