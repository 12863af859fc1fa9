/** Data samples (`DataSample`): a tagged record holding either an image or raw bytes, its
    keyed encoding, and the `MPSImage` shape it is turned into. Images and textures are opaque. */
module DataLoader {
  import opened Wrappers
  import opened Tensors
  import opened Coding

  /** `DataType`, with its integer raw values. */
  datatype DataType = ImageData | BytesData

  function RawValue(t: DataType): (r: int)
    ensures r == 0 <==> t == ImageData
    ensures r == 1 <==> t == BytesData
  {
    match t
    case ImageData => 0
    case BytesData => 1
  }

  /** `DataType(rawValue:)`: defined exactly on the two raw values. */
  function FromRaw(raw: int): (r: Option<DataType>)
    ensures r.Some? <==> raw == 0 || raw == 1
    ensures r.Some? ==> RawValue(r.value) == raw
  {
    if raw == 0 then Some(ImageData)
    else if raw == 1 then Some(BytesData)
    else None
  }

  /** The raw value names its case back. */
  lemma RawValueRoundTrip(t: DataType)
    ensures FromRaw(RawValue(t)) == Some(t)
  {
  }

  /** An opaque `CGImage`; `hasPng` says whether its PNG rendering exists. */
  datatype ImageRef = ImageRef(id: nat, hasPng: bool)

  /** An opaque texture: the one `CGImage.texture` makes from an image. */
  datatype Texture = Texture(of: ImageRef)

  datatype DataSample = DataSample(
    image: Option<ImageRef>,
    texture: Option<Texture>,
    bytes: Option<seq<Byte>>,
    dataType: DataType,
    labelValue: int)

  /** A runtime trap: a force unwrap of nil. */
  datatype Trap = NilUnwrap

  /** `init(image:label:)`. */
  function FromImage(image: ImageRef, labelValue: int): (r: DataSample)
    ensures r.dataType == ImageData && r.labelValue == labelValue
    ensures r.image == Some(image) && r.texture == Some(Texture(image)) && r.bytes.None?
  {
    DataSample(Some(image), Some(Texture(image)), None, ImageData, labelValue)
  }

  /** `init(bytes:label:)`. */
  function FromBytes(bytes: seq<Byte>, labelValue: int): (r: DataSample)
    ensures r.dataType == BytesData && r.labelValue == labelValue
    ensures r.bytes == Some(bytes) && r.image.None? && r.texture.None?
  {
    DataSample(None, None, Some(bytes), BytesData, labelValue)
  }

  const ImageKey := "image"
  const LabelKey := "label"
  const TypeKey := "type"
  const BytesKey := "bytes"

  /** `encode(to:)`. `label` and `type` always; then the image key (null when there is no image,
      a trap when the PNG rendering fails) or the bytes key (a trap when there are no bytes). */
  function Encode(d: DataSample): (r: Result<Container, Trap>)
    ensures r.Failure? <==>
      (d.dataType == ImageData && d.image.Some? && !d.image.value.hasPng) || (d.dataType == BytesData && d.bytes.None?)
    ensures r.Success? ==>
      && LabelKey in r.value && r.value[LabelKey] == IntValue(d.labelValue)
      && TypeKey in r.value && r.value[TypeKey] == IntValue(RawValue(d.dataType))
      && (ImageKey in r.value <==> d.dataType == ImageData)
      && (BytesKey in r.value <==> d.dataType == BytesData)
      && r.value.Keys <= {LabelKey, TypeKey, ImageKey, BytesKey}
    ensures r.Success? && d.dataType == BytesData ==> r.value[BytesKey] == BytesValue(d.bytes.value)
    ensures r.Success? && d.dataType == ImageData && d.image.None? ==> r.value[ImageKey] == NullValue
    ensures r.Success? && d.dataType == ImageData && d.image.Some? ==> r.value[ImageKey] == PngValue(d.image.value.id)
  {
    var common := map[LabelKey := IntValue(d.labelValue), TypeKey := IntValue(RawValue(d.dataType))];
    match d.dataType
    case ImageData =>
      if d.image.None? then Success(common[ImageKey := NullValue])
      else if !d.image.value.hasPng then Failure(NilUnwrap)
      else Success(common[ImageKey := PngValue(d.image.value.id)])
    case BytesData =>
      if d.bytes.None? then Failure(NilUnwrap)
      else Success(common[BytesKey := BytesValue(d.bytes.value)])
  }

  /** `init(from:)`: `label`, then `type` (an integer that is not a raw value is corrupted data),
      then the image (its texture derived from it) or the bytes; the other fields stay nil. The
      PNG data is read back as the image it was written from. */
  function Decode(c: Container): (r: Result<DataSample, DecodingError>)
    ensures r.Success? <==>
      && LabelKey in c && c[LabelKey].IntValue?
      && TypeKey in c && c[TypeKey].IntValue? && FromRaw(c[TypeKey].i).Some?
      && (FromRaw(c[TypeKey].i) == Some(ImageData) ==> ImageKey in c && c[ImageKey].PngValue?)
      && (FromRaw(c[TypeKey].i) == Some(BytesData) ==> BytesKey in c && c[BytesKey].BytesValue?)
    ensures r.Success? ==>
      && c[LabelKey] == IntValue(r.value.labelValue)
      && c[TypeKey] == IntValue(RawValue(r.value.dataType))
    ensures r.Success? && r.value.dataType == BytesData ==>
      && r.value.bytes.Some? && c[BytesKey] == BytesValue(r.value.bytes.value)
      && r.value.image.None? && r.value.texture.None?
    ensures r.Success? && r.value.dataType == ImageData ==>
      && r.value.image.Some? && c[ImageKey] == PngValue(r.value.image.value.id)
      && r.value.texture == Some(Texture(r.value.image.value)) && r.value.bytes.None?
  {
    var labelValue :- DecodeInt(c, LabelKey);
    var raw :- DecodeInt(c, TypeKey);
    match FromRaw(raw)
    case None => Failure(DataCorrupted(TypeKey))
    case Some(ImageData) =>
      var id :- DecodePng(c, ImageKey);
      var image := ImageRef(id, true);
      Success(DataSample(Some(image), Some(Texture(image)), None, ImageData, labelValue))
    case Some(BytesData) =>
      var bytes :- DecodeBytes(c, BytesKey);
      Success(DataSample(None, None, Some(bytes), BytesData, labelValue))
  }

  /** Decoding the encoding of a bytes sample gives back the same sample: same label, same type,
      same bytes, no image and no texture. */
  lemma BytesRoundTrip(bytes: seq<Byte>, labelValue: int)
    ensures Encode(FromBytes(bytes, labelValue)).Success?
    ensures Decode(Encode(FromBytes(bytes, labelValue)).value) == Success(FromBytes(bytes, labelValue))
  {
    var c := Encode(FromBytes(bytes, labelValue)).value;
    assert c[TypeKey] == IntValue(1);
  }

  /** An image sample survives the round trip as to type, label and image identity, and its
      texture is again the one made from its image. */
  lemma ImageRoundTrip(image: ImageRef, labelValue: int)
    requires image.hasPng
    ensures Encode(FromImage(image, labelValue)).Success?
    ensures var d := Decode(Encode(FromImage(image, labelValue)).value);
      && d.Success? && d.value.dataType == ImageData && d.value.labelValue == labelValue
      && d.value.image.value.id == image.id && d.value.texture == Some(Texture(d.value.image.value))
  {
    var c := Encode(FromImage(image, labelValue)).value;
    assert c[TypeKey] == IntValue(0);
  }

  /** An image sample without an image encodes a null image, which then fails to decode. */
  lemma MissingImageDoesNotDecode(labelValue: int)
    ensures var d := DataSample(None, None, None, ImageData, labelValue);
      Encode(d).Success? && Decode(Encode(d).value) == Failure(ValueNotFound(ImageKey))
  {
    var c := Encode(DataSample(None, None, None, ImageData, labelValue)).value;
    assert c[TypeKey] == IntValue(0);
  }

  /** The image `getMPSImage` returns: one wrapping a texture with one feature channel, or one
      made from a buffer of bytes. */
  datatype MpsImage = TextureImage(texture: Texture, featureChannels: int) | BufferImage(image: Image)

  /** `getMPSImage(device:)`: the texture with one channel, or a 1 x 1 image whose feature
      channels are the bytes; a missing texture or missing bytes traps. */
  function ToMpsImage(d: DataSample): (r: Result<MpsImage, Trap>)
    ensures r.Failure? <==> (d.dataType == ImageData && d.texture.None?) || (d.dataType == BytesData && d.bytes.None?)
    ensures r.Success? && d.dataType == ImageData ==> r.value == TextureImage(d.texture.value, 1)
    ensures r.Success? && d.dataType == BytesData ==>
      && r.value.BufferImage?
      && r.value.image.width == 1 && r.value.image.height == 1
      && r.value.image.featureChannels == |d.bytes.value|
      && r.value.image.pixels == d.bytes.value
  {
    match d.dataType
    case ImageData =>
      if d.texture.None? then Failure(NilUnwrap) else Success(TextureImage(d.texture.value, 1))
    case BytesData =>
      if d.bytes.None? then Failure(NilUnwrap)
      else Success(BufferImage(Image(1, 1, |d.bytes.value|, d.bytes.value)))
  }

  /** Every sample built by either initialiser converts without trapping: the image initialiser
      always sets the texture, the bytes initialiser always sets the bytes. */
  lemma InitialisedSamplesConvert(image: ImageRef, bytes: seq<Byte>, labelValue: int)
    ensures ToMpsImage(FromImage(image, labelValue)) == Success(TextureImage(Texture(image), 1))
    ensures ToMpsImage(FromBytes(bytes, labelValue)).Success?
    ensures ToMpsImage(FromBytes(bytes, labelValue)).value.image.featureChannels == |bytes|
  {
  }
}
