/**
 * `GameMetadata` (src/GameMetadata.hpp): the player names that are not part of
 * the simulated state, kept per connection id and sent as a framed buffer.
 * The heightmap and its model key are rendering data and are not modelled.
 */
module Metadata {
  import opened Wrappers
  import opened CStrings
  import opened Framing

  /** The encoding of the names; only `m_players` is archived. */
  type NamesEncoder = map<nat, string> -> seq<Byte>

  type NamesDecoder = seq<Byte> -> map<nat, string>

  /** `GameMetadata::Serialize` as a function of the names. */
  function SerializeNames(encode: NamesEncoder, names: map<nat, string>): (r: Result<Frame>)
    ensures r.Ok? <==> |encode(names)| % U32 <= Capacity
    ensures r.Err? ==> r.error == "Serialized game metadata exceeds buffer size"
    ensures r.Ok? ==> r.value.size == |encode(names)| % U32 && r.value.size <= |encode(names)|
    ensures r.Ok? ==> WellSized(r.value) && Payload(r.value) == encode(names)[..r.value.size]
  {
    Pack(encode(names), "Serialized game metadata exceeds buffer size")
  }

  /** A name map whose encoding fits is received as it was sent, whenever the decoder inverts the encoder on it. */
  lemma NamesRoundTrip(encode: NamesEncoder, decode: NamesDecoder, names: map<nat, string>)
    requires |encode(names)| <= Capacity && decode(encode(names)) == names
    ensures SerializeNames(encode, names).Ok?
    ensures decode(Payload(SerializeNames(encode, names).value)) == names
  {
    PackPayload(encode(names), "Serialized game metadata exceeds buffer size", 0);
  }

  class GameMetadata {
    /** `m_players`: each id's name, the C string held in its `name` array. */
    var names: map<nat, string>
    /** `max_player_name_len`, the size of each `name` array (its value is not part of this model). */
    const nameLen: nat

    /** Every stored name fits its array with the terminator. */
    ghost predicate Valid()
      reads this
    {
      nameLen >= 1 && forall id :: id in names ==> |names[id]| < nameLen
    }

    /** `GameMetadata() = default`: no names. */
    constructor(nameLen: nat)
      requires nameLen >= 1
      ensures this.nameLen == nameLen && names == map[] && Valid()
    {
      this.nameLen := nameLen;
      names := map[];
    }

    /**
     * `GetPlayerName`: `operator[]` creates an empty name for an unknown id, so
     * asking for a name can add an entry; a known id's name is returned as is.
     */
    method GetPlayerName(id: nat) returns (name: string)
      requires Valid()
      modifies this
      ensures Valid()
      ensures name == if id in old(names) then old(names)[id] else ""
      ensures names == if id in old(names) then old(names) else old(names)[id := ""]
    {
      if id !in names {
        names := names[id := ""];
      }
      name := names[id];
    }

    /** `SetPlayerName`: that id's name, and only it, becomes the given one cut to `nameLen - 1` characters. */
    method SetPlayerName(id: nat, name: string)
      requires Valid()
      modifies this
      ensures Valid()
      ensures names == old(names)[id := Truncated(name, nameLen)]
    {
      names := names[id := Truncated(name, nameLen)];
    }

    /** `Serialize`: the names framed into 8192 bytes, or the overflow error. */
    method Serialize(encode: NamesEncoder) returns (r: Result<Frame>)
      ensures r == SerializeNames(encode, names)
    {
      r := Pack(encode(names), "Serialized game metadata exceeds buffer size");
    }

    /** `Deserialize`: the names become whatever the first `size` bytes decode to. */
    method Deserialize(f: Frame, decode: NamesDecoder)
      requires WellSized(f)
      modifies this
      ensures names == decode(Payload(f))
    {
      names := decode(f.bytes[..f.size]);
    }
  }
}
