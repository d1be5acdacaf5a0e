/**
 * The packet envelope (src/packet.ts): a `Packet` carries `version` (always 1), a string `type`
 * tag and an opaque `data` payload.  The byte encoding is Node's structured-clone serializer,
 * which this model takes as a parameter: a `Codec` value with an `encode` and a `decode` arrow.
 */
module Packets {
  import opened Base

  type Bytes = seq<bv8>

  /** The two reserved tags, spelled as the code spells them. */
  const RequestTag: string := "request-incomming-connection"
  const ApproveTag: string := "approve-incomming-connection"

  predicate IsReserved(tag: string) {
    tag == RequestTag || tag == ApproveTag
  }

  /** A payload: `null`, `undefined`, or any other structured-clone value, kept opaque. */
  datatype Data = Null | Undefined | Opaque(repr: seq<int>)

  /** The plain object the decoder hands back: `{version?, type, data}` (`type` is a Dafny keyword, so the field is `tag`). */
  datatype Record = Record(version: Option<int>, tag: string, data: Data)

  /** A constructed packet. */
  datatype Packet = Packet(version: int, tag: string, data: Data)

  /** The error the constructor throws; its message names the offending version. */
  datatype PacketError = UnsupportedVersion(version: int)

  /** The serializer pair, supplied from outside the model. */
  datatype Codec = Codec(encode: Record -> Bytes, decode: Bytes -> Record)

  /** The property assumed of the serializer: decoding inverts encoding. */
  ghost predicate Inverse(codec: Codec) {
    forall r: Record :: codec.decode(codec.encode(r)) == r
  }

  /**
   * `new Packet(init)`: an absent version counts as 1; version 1 copies `type` and `data`;
   * any other version throws.
   */
  function NewPacket(init: Record): (r: Result<Packet, PacketError>)
    ensures r.Ok? <==> init.version == None || init.version == Some(1)
    ensures r.Ok? ==> r.value.version == 1
    ensures r.Ok? ==> r.value.tag == init.tag && r.value.data == init.data
    ensures r.Err? ==> init.version.Some? && r.error == UnsupportedVersion(init.version.value)
  {
    var v := match init.version case Some(n) => n case None => 1;
    if v == 1 then Ok(Packet(1, init.tag, init.data)) else Err(UnsupportedVersion(v))
  }

  /** `new RequestIncommingConnection()`: the zero-payload request packet. */
  function RequestIncommingConnection(): (p: Packet)
    ensures p == Packet(1, RequestTag, Null)
  {
    NewPacket(Record(None, RequestTag, Null)).value
  }

  /** `new ApproveIncommingConnection()`: the zero-payload approve packet. */
  function ApproveIncommingConnection(): (p: Packet)
    ensures p == Packet(1, ApproveTag, Null)
  {
    NewPacket(Record(None, ApproveTag, Null)).value
  }

  /** The object `serialize` hands to the encoder: the packet's own three fields. */
  function ToRecord(p: Packet): Record {
    Record(Some(p.version), p.tag, p.data)
  }

  /** `packet.serialize()`: the bytes decode back to the packet's own three fields. */
  function Serialize(codec: Codec, p: Packet): (b: Bytes)
    ensures Inverse(codec) ==> codec.decode(b) == Record(Some(p.version), p.tag, p.data)
  {
    codec.encode(ToRecord(p))
  }

  /**
   * `Packet.deserialize(buffer)`: the reserved tags become fresh zero-payload packets whatever
   * the decoded version and data; every other tag goes through the version-checking constructor.
   */
  function Deserialize(codec: Codec, buffer: Bytes): (r: Result<Packet, PacketError>)
    ensures codec.decode(buffer).tag == RequestTag ==> r == Ok(Packet(1, RequestTag, Null))
    ensures codec.decode(buffer).tag == ApproveTag ==> r == Ok(Packet(1, ApproveTag, Null))
    ensures !IsReserved(codec.decode(buffer).tag) ==>
              (r.Ok? <==> codec.decode(buffer).version in {None, Some(1)})
    ensures !IsReserved(codec.decode(buffer).tag) && r.Ok? ==>
              r.value.tag == codec.decode(buffer).tag && r.value.data == codec.decode(buffer).data
    ensures !IsReserved(codec.decode(buffer).tag) && r.Err? ==>
              r.error == UnsupportedVersion(codec.decode(buffer).version.value)
    ensures r.Ok? ==> r.value.version == 1
  {
    var packet := codec.decode(buffer);
    if packet.tag == RequestTag then Ok(RequestIncommingConnection())
    else if packet.tag == ApproveTag then Ok(ApproveIncommingConnection())
    else NewPacket(packet)
  }

  /**
   * Round trip: for a packet of version 1 and a decoder that inverts the encoder, deserializing
   * the serialized packet succeeds and keeps the tag; it gives back the packet itself unless the
   * tag is reserved and the data is not null.
   */
  lemma RoundTrip(codec: Codec, p: Packet)
    requires Inverse(codec)
    requires p.version == 1
    ensures Deserialize(codec, Serialize(codec, p)).Ok?
    ensures Deserialize(codec, Serialize(codec, p)).value.tag == p.tag
    ensures !IsReserved(p.tag) || p.data == Null ==> Deserialize(codec, Serialize(codec, p)) == Ok(p)
  {
    assert codec.decode(codec.encode(ToRecord(p))) == ToRecord(p);
  }

  /** A packet built by the constructor with a reserved tag and a payload loses the payload. */
  lemma ReservedTagDropsData(codec: Codec, p: Packet)
    requires Inverse(codec)
    requires p.version == 1 && IsReserved(p.tag) && p.data != Null
    ensures Deserialize(codec, Serialize(codec, p)) == Ok(Packet(1, p.tag, Null))
    ensures Deserialize(codec, Serialize(codec, p)) != Ok(p)
  {
    assert codec.decode(codec.encode(ToRecord(p))) == ToRecord(p);
  }
}
