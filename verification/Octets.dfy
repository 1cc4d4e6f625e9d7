/** Bytes and optional values, shared by the relay and the DNS load generator. */
module Octets {
  datatype Option<+T> = None | Some(value: T)

  type Byte = b: int | 0 <= b < 256
  type Bytes = seq<Byte>

  /** `b & mask`. */
  function Masked(b: Byte, mask: bv8): Byte {
    ((b as bv8) & mask) as int
  }

  /** A 16-bit number, most significant byte first (htons and PUT_HTONS). */
  function BigEndian(v: nat): Bytes
    requires v < 0x1_0000
  {
    [v / 256, v % 256]
  }

  function BigEndianAt(data: Bytes, offset: nat): nat
    requires offset + 2 <= |data|
  {
    data[offset] as int * 256 + data[offset + 1] as int
  }

  lemma BigEndianRoundTrip(data: Bytes, offset: nat)
    requires offset + 2 <= |data|
    ensures BigEndianAt(data, offset) < 0x1_0000
    ensures BigEndian(BigEndianAt(data, offset)) == data[offset..offset + 2]
  {
    var hi, lo := data[offset], data[offset + 1];
    var v := BigEndianAt(data, offset);
    assert v / 256 == hi && v % 256 == lo;
  }
}
