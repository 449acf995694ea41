/**
 * The fixed-capacity buffers that carry a serialized game state or game metadata
 * (`SerializedGameState`, `SerializedGameMetadata`): a byte count and 8192 bytes.
 * The byte encoding itself (cereal) is not part of this model; it enters as
 * the encoded byte sequence.
 */
module Framing {
  import opened Wrappers

  /** `4096*2`, the size of the `bytes` array. */
  const Capacity: nat := 8192

  /** `tick` is only present in `SerializedGameState`; metadata frames leave it 0. */
  datatype Frame = Frame(tick: nat, size: nat, bytes: seq<Byte>)

  /** A frame whose count does not run past its buffer. */
  predicate WellSized(f: Frame)
  {
    f.size <= |f.bytes|
  }

  /**
   * The `Serialize` framing: the count is the encoding's length cast to
   * `uint32_t`; a count above the capacity throws `overflow`; otherwise that many
   * bytes of the encoding are copied into a zeroed buffer.
   */
  function Pack(enc: seq<Byte>, overflow: string): (r: Result<Frame>)
    ensures r.Ok? <==> |enc| % U32 <= Capacity
    ensures r.Err? ==> r.error == overflow
    ensures r.Ok? ==> && r.value.tick == 0 && r.value.size == |enc| % U32 && r.value.size <= |enc|
                      && |r.value.bytes| == Capacity && WellSized(r.value)
                      && r.value.bytes[..r.value.size] == enc[..r.value.size]
                      && forall i :: r.value.size <= i < Capacity ==> r.value.bytes[i] == 0
  {
    var size := |enc| % U32;
    if size > Capacity then Err(overflow)
    else Ok(Frame(0, size, enc[..size] + seq(Capacity - size, _ => 0)))
  }

  /** The bytes `Deserialize` hands to the decoder: exactly the first `size`. */
  function Payload(f: Frame): (r: seq<Byte>)
    requires WellSized(f)
    ensures |r| == f.size && r == f.bytes[..f.size]
  {
    f.bytes[..f.size]
  }

  /**
   * Framing loses nothing: an encoding that fits is packed and read back whole,
   * whatever tick the frame is later tagged with.
   */
  lemma PackPayload(enc: seq<Byte>, overflow: string, tick: nat)
    requires |enc| <= Capacity
    ensures Pack(enc, overflow).Ok?
    ensures Payload(Pack(enc, overflow).value.(tick := tick)) == enc
  {
    assert |enc| % U32 == |enc|;
  }
}
