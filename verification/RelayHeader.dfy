/** The relay request header of shadowsocks_server.c:784-915: its printer, the
    parser inside server_recv_cb, and the proof that the parser accepts exactly
    what the printer writes (address layout of RFC 1928, section 5). */
module RelayHeader {

  import opened Octets

  datatype Address =
    | IPv4(octets: Bytes)
    | Domain(name: Bytes)
    | IPv6(octets: Bytes)
  {
    predicate Valid() {
      match this
      case IPv4(o) => |o| == 4
      case Domain(n) => |n| <= 255
      case IPv6(o) => |o| == 16
    }

    function Code(): Byte {
      match this
      case IPv4(_) => 1
      case Domain(_) => 3
      case IPv6(_) => 4
    }
  }

  /** DST.ADDR as it travels: a domain name is preceded by its length. */
  function AddressBytes(a: Address): Bytes
    requires a.Valid()
  {
    match a
    case IPv4(o) => o
    case Domain(n) => [|n|] + n
    case IPv6(o) => o
  }

  function Print(a: Address, port: nat): Bytes
    requires a.Valid() && port < 0x1_0000
  {
    [a.Code()] + AddressBytes(a) + BigEndian(port)
  }

  datatype ParseResult =
    | Parsed(address: Address, port: nat, offset: nat)
    | Reject

  /** What the header part of server_recv_cb decides for a buffer whose first
      `len` bytes were decrypted; the rest of `data` is left from earlier reads.
      `mask` is ADDRTYPE_MASK. */
  function Parse(mask: bv8, data: Bytes, len: nat): (r: ParseResult)
    requires 2 <= |data| && len <= |data|
    ensures r.Parsed? ==> 4 <= r.offset <= len
  {
    var kind := Masked(data[0], mask);
    if kind == 1 then
      if len >= 7 then Parsed(IPv4(data[1..5]), BigEndianAt(data, 5), 7) else Reject
    else if kind == 3 then
      var n := data[1];
      if n + 4 <= len then Parsed(Domain(data[2..n + 2]), BigEndianAt(data, n + 2), n + 4) else Reject
    else if kind == 4 then
      if len >= 19 then Parsed(IPv6(data[1..17]), BigEndianAt(data, 17), 19) else Reject
    else Reject
  }

  /** The same decision taken the way the source takes it: a cursor walks the
      buffer, and the length is checked once more at the end. The last check
      can never fail. */
  method ParseInPlace(mask: bv8, data: Bytes, len: nat) returns (r: ParseResult)
    requires 2 <= |data| && len <= |data|
    ensures r == Parse(mask, data, len)
  {
    var offset := 0;
    var atyp := data[offset];
    offset := offset + 1;
    var address := IPv4([]);
    if Masked(atyp, mask) == 1 {
      if len >= 4 + 3 {
        address := IPv4(data[offset..offset + 4]);
        offset := offset + 4;
      } else {
        return Reject;
      }
    } else if Masked(atyp, mask) == 3 {
      var nameLen := data[offset];
      if nameLen + 4 <= len {
        address := Domain(data[offset + 1..offset + 1 + nameLen]);
        offset := offset + nameLen + 1;
      } else {
        return Reject;
      }
    } else if Masked(atyp, mask) == 4 {
      if len >= 16 + 3 {
        address := IPv6(data[offset..offset + 16]);
        offset := offset + 16;
      } else {
        return Reject;
      }
    }
    if offset == 1 {
      return Reject;
    }
    var port := BigEndianAt(data, offset);
    offset := offset + 2;
    // shadowsocks_server.c:908 is implied by the earlier length checks.
    assert offset <= len;
    r := Parsed(address, port, offset);
  }

  /** `data[..off]` is the header of (a, port); the type byte may carry flags
      outside the mask. */
  predicate IsHeader(mask: bv8, data: Bytes, a: Address, port: nat, off: nat) {
    && a.Valid()
    && port < 0x1_0000
    && off == |Print(a, port)| <= |data|
    && Masked(data[0], mask) == a.Code()
    && data[1..off] == AddressBytes(a) + BigEndian(port)
  }

  /** An accepted header is a printed header lying wholly inside the decrypted bytes. */
  lemma ParseSound(mask: bv8, data: Bytes, len: nat)
    requires 2 <= |data| && len <= |data|
    requires Parse(mask, data, len).Parsed?
    ensures var r := Parse(mask, data, len);
            IsHeader(mask, data[..len], r.address, r.port, r.offset)
  {
    var r := Parse(mask, data, len);
    BigEndianRoundTrip(data, r.offset - 2);
    match r.address {
      case IPv4(o) =>
        assert data[1..7] == data[1..5] + data[5..7];
      case IPv6(o) =>
        assert data[1..19] == data[1..17] + data[17..19];
      case Domain(n) =>
        assert data[1..r.offset] == [data[1]] + data[2..r.offset - 2] + data[r.offset - 2..r.offset];
    }
    assert data[..len][1..r.offset] == data[1..r.offset];
  }

  /** The bytes behind the type byte of a header. */
  lemma HeaderBytes(mask: bv8, data: Bytes, len: nat, a: Address, port: nat, off: nat)
    requires 2 <= |data| && len <= |data|
    requires IsHeader(mask, data[..len], a, port, off)
    ensures 4 <= off <= len && Masked(data[0], mask) == a.Code() && BigEndianAt(data, off - 2) == port
    ensures data[1..off - 2] == AddressBytes(a)
  {
    var d := data[..len];
    var body := AddressBytes(a) + BigEndian(port);
    assert data[0] == d[0];
    assert forall i :: 1 <= i < off ==> data[i] == d[i] == d[1..off][i - 1] == body[i - 1];
    assert data[off - 2] == body[off - 3] == port / 256;
    assert data[off - 1] == body[off - 2] == port % 256;
  }

  /** Every header with room for it is accepted, and read back exactly. */
  lemma ParseComplete(mask: bv8, data: Bytes, len: nat, a: Address, port: nat, off: nat)
    requires 2 <= |data| && len <= |data|
    requires IsHeader(mask, data[..len], a, port, off)
    ensures Parse(mask, data, len) == Parsed(a, port, off)
  {
    HeaderBytes(mask, data, len, a, port, off);
    if a.Domain? {
      var body := data[1..off - 2];
      assert data[1] == body[0] == |a.name| && data[2..off - 2] == body[1..] == a.name;
    }
  }

  /** Both directions: the parser accepts (a, port) at `off` iff the decrypted
      bytes start with that header; hence it rejects iff they start with none. */
  lemma ParseExact(mask: bv8, data: Bytes, len: nat, a: Address, port: nat, off: nat)
    requires 2 <= |data| && len <= |data|
    ensures Parse(mask, data, len) == Parsed(a, port, off) <==> IsHeader(mask, data[..len], a, port, off)
  {
    if IsHeader(mask, data[..len], a, port, off) {
      ParseComplete(mask, data, len, a, port, off);
    }
    if Parse(mask, data, len) == Parsed(a, port, off) {
      ParseSound(mask, data, len);
    }
  }

  /** Bytes left over behind the decrypted ones cannot change the decision. */
  lemma ParseIgnoresStaleBytes(mask: bv8, data: Bytes, data': Bytes, len: nat)
    requires 2 <= |data| && len <= |data| && 2 <= |data'| && len <= |data'|
    requires data[..len] == data'[..len]
    ensures Parse(mask, data, len) == Parse(mask, data', len)
  {
    var r, r' := Parse(mask, data, len), Parse(mask, data', len);
    if r.Parsed? {
      ParseSound(mask, data, len);
      ParseComplete(mask, data', len, r.address, r.port, r.offset);
    } else if r'.Parsed? {
      ParseSound(mask, data', len);
      ParseComplete(mask, data, len, r'.address, r'.port, r'.offset);
    }
  }

  /** Round trip: print, append any payload, leave any stale bytes behind, parse. */
  lemma ParseInvertsPrint(mask: bv8, a: Address, port: nat, payload: Bytes, stale: Bytes)
    requires a.Valid() && port < 0x1_0000
    requires Masked(a.Code(), mask) == a.Code()
    ensures var h := Print(a, port);
            var data := h + payload + stale;
            && Parse(mask, data, |h| + |payload|) == Parsed(a, port, |h|)
            && data[|h|..|h| + |payload|] == payload
  {
    var h := Print(a, port);
    var data := h + payload + stale;
    assert data[..|h| + |payload|] == h + payload;
    assert (h + payload)[1..|h|] == AddressBytes(a) + BigEndian(port);
    ParseComplete(mask, data, |h| + |payload|, a, port, |h|);
  }
}
