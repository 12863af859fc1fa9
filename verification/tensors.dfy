/** Bytes, byte regions and the images written from them. */
module Tensors {
  import opened Wrappers

  /** An unsigned 8-bit value, Swift's `UInt8`. */
  type Byte = x: int | 0 <= x < 256

  /** An `MPSImage` as the model sees it: its shape and the bytes written into it in
      height x width x feature-channel order. */
  datatype Image = Image(width: int, height: int, featureChannels: int, pixels: seq<Byte>)

  /** The `count` bytes of `region` starting at `offset`, or `None` when any of them lies
      outside the region (a read through an advanced pointer past the end of its `Data`). */
  function ReadBytes(region: seq<Byte>, offset: int, count: nat): (r: Option<seq<Byte>>)
    ensures r.Some? <==> 0 <= offset && offset + count <= |region|
    ensures r.Some? ==> |r.value| == count
    ensures r.Some? ==> forall k :: 0 <= k < count ==> r.value[k] == region[offset + k]
  {
    if 0 <= offset && offset + count <= |region| then Some(region[offset..offset + count]) else None
  }

  /** The single byte of `region` at `offset`, or `None` outside it. */
  function ReadByte(region: seq<Byte>, offset: int): (r: Option<Byte>)
    ensures r.Some? <==> 0 <= offset < |region|
    ensures r.Some? ==> r.value == region[offset]
  {
    if 0 <= offset < |region| then Some(region[offset]) else None
  }
}
