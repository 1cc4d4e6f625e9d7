/** The question packet blast() builds (dnsblast.c:28-34 and 105-117, dns.h:20-32),
    and a reader for it written from sections 3.1, 4.1.1 and 4.1.2 of RFC 1035. */
module DnsQuestion {
  import opened Octets
  import opened DnsName

  const HEADER_SIZE: nat := 12
  const FLAGS_RECURSION_DESIRED: nat := 0x0100
  const CLASS_IN: nat := 1

  /** The header as the program leaves it in memory: the id in the order of a
      little-endian host, everything else through htons. */
  function Header(id: nat): (h: Bytes)
    requires id < 0x1_0000
    ensures |h| == HEADER_SIZE
  {
    [id % 256, id / 256] + BigEndian(FLAGS_RECURSION_DESIRED) + BigEndian(1) + [0, 0, 0, 0, 0, 0]
  }

  /** The packet for one question. */
  function Packet(id: nat, ls: Labels, qtype: nat): Bytes
    requires id < 0x1_0000 && qtype < 0x1_0000 && ls.Sized(0, UCHAR_MAX)
  {
    Header(id) + Wire(ls) + BigEndian(qtype) + BigEndian(CLASS_IN)
  }

  // ---------------------------------------------------------------- the reader

  datatype Question = Question(id: nat, flags: nat, qdcount: nat, ancount: nat, nscount: nat, arcount: nat,
                               labels: Labels, qtype: nat, qclass: nat)

  /** Section 3.1: length-prefixed labels up to a zero length; a length of 64 or more
      is not a plain label. The second result is the offset behind the name. */
  function ReadLabels(p: Bytes, at: nat): (r: Option<(Labels, nat)>)
    ensures r.Some? ==> at < r.value.1 <= |p|
    decreases |p| - at
  {
    if at >= |p| then None
    else if p[at] == 0 then Some((End, at + 1))
    else if p[at] >= 64 || at + 1 + p[at] > |p| then None
    else
      match ReadLabels(p, at + 1 + p[at])
      case None => None
      case Some(rest) => Some((Label(p[at + 1..at + 1 + p[at]], rest.0), rest.1))
  }

  /** Sections 4.1.1 and 4.1.2, for a message that holds one question and no more. */
  function Read(p: Bytes): Option<Question> {
    if |p| < HEADER_SIZE then None
    else
      match ReadLabels(p, HEADER_SIZE)
      case None => None
      case Some(name) =>
        if name.1 + 4 != |p| then None
        else Some(Question(BigEndianAt(p, 0), BigEndianAt(p, 2), BigEndianAt(p, 4), BigEndianAt(p, 6),
                           BigEndianAt(p, 8), BigEndianAt(p, 10),
                           name.0, BigEndianAt(p, name.1), BigEndianAt(p, name.1 + 2)))
  }

  // ---------------------------------------------------------------- round trip

  /** The labels before the first empty one. */
  function Cut(ls: Labels): Labels {
    if ls.End? || ls.first == [] then End else Label(ls.first, Cut(ls.rest))
  }

  function WireSize(ls: Labels): nat {
    if ls.End? then 1 else 1 + |ls.first| + WireSize(ls.rest)
  }

  /** A reader takes an empty label for the end of the name. */
  lemma {:induction false} ReadWire(pre: Bytes, ls: Labels, post: Bytes)
    requires ls.Sized(0, 63) && ls.Sized(0, UCHAR_MAX)
    ensures ReadLabels(pre + Wire(ls) + post, |pre|) == Some((Cut(ls), |pre| + WireSize(Cut(ls))))
    decreases ls
  {
    var p := pre + Wire(ls) + post;
    if ls.Label? && ls.first != [] {
      var pre' := pre + ([|ls.first|] + ls.first);
      assert p == pre' + Wire(ls.rest) + post;
      ReadWire(pre', ls.rest, post);
      assert p[|pre|] == |ls.first|;
      assert p[|pre| + 1..|pre| + 1 + |ls.first|] == ls.first;
    } else {
      assert p[|pre|] == 0;
    }
  }

  lemma {:induction false} CutNothing(ls: Labels)
    requires ls.Sized(0, 63)
    ensures Cut(ls) == ls <==> ls.Sized(1, 63)
  {
    if ls.Label? {
      CutNothing(ls.rest);
    }
  }

  lemma {:induction false} WireSizeIsLength(ls: Labels)
    requires ls.Sized(0, UCHAR_MAX)
    ensures |Wire(ls)| == WireSize(ls)
  {
    if ls.Label? {
      WireSizeIsLength(ls.rest);
    }
  }

  /** The id as the wire carries it, read in network order. */
  function SwappedId(id: nat): nat
    requires id < 0x1_0000
  {
    (id % 256) * 256 + id / 256
  }

  /** The reply carries the id back; receive() puts the bytes together again. */
  lemma SwapRecovers(id: nat)
    requires id < 0x1_0000
    ensures SwappedId(id) < 0x1_0000 && SwappedId(SwappedId(id)) == id
    ensures Header(id)[1] as int * 256 + Header(id)[0] as int == id
  {
    assert id % 256 < 256 && id / 256 < 256;
    assert SwappedId(id) / 256 == id % 256 && SwappedId(id) % 256 == id / 256;
  }

  lemma ReadHeader(p: Bytes, id: nat, body: Bytes)
    requires id < 0x1_0000 && p == Header(id) + body
    ensures BigEndianAt(p, 0) == SwappedId(id)
    ensures BigEndianAt(p, 2) == FLAGS_RECURSION_DESIRED && BigEndianAt(p, 4) == 1
    ensures BigEndianAt(p, 6) == BigEndianAt(p, 8) == BigEndianAt(p, 10) == 0
  {
    var h := Header(id);
    assert p[0] == h[0] == id % 256 && p[1] == h[1] == id / 256;
    assert p[2] == h[2] == 1 && p[3] == h[3] == 0 && p[4] == h[4] == 0 && p[5] == h[5] == 1;
    assert forall i :: 6 <= i < 12 ==> p[i] == h[i] == 0;
  }

  /** The question a reader should find in the packet. */
  function Asked(id: nat, ls: Labels, qtype: nat): Question
    requires id < 0x1_0000
  {
    Question(SwappedId(id), FLAGS_RECURSION_DESIRED, 1, 0, 0, 0, ls, qtype, CLASS_IN)
  }

  lemma ReadFields(id: nat, ls: Labels, qtype: nat)
    requires id < 0x1_0000 && qtype < 0x1_0000 && ls.Sized(0, 63) && ls.Sized(0, UCHAR_MAX)
    ensures var p := Packet(id, ls, qtype);
            var end := HEADER_SIZE + WireSize(ls);
            && |p| == end + 4
            && ReadLabels(p, HEADER_SIZE) == Some((Cut(ls), HEADER_SIZE + WireSize(Cut(ls))))
            && BigEndianAt(p, end) == qtype && BigEndianAt(p, end + 2) == CLASS_IN
  {
    var p := Packet(id, ls, qtype);
    var post := BigEndian(qtype) + BigEndian(CLASS_IN);
    WireSizeIsLength(ls);
    ReadWire(Header(id), ls, post);
    assert p == Header(id) + Wire(ls) + post;
    var end := HEADER_SIZE + WireSize(ls);
    assert p[end] == post[0] && p[end + 1] == post[1] && p[end + 2] == post[2] && p[end + 3] == post[3];
  }

  /** A reader only ever finds labels of 1 to 63 bytes. */
  lemma {:induction false} ReadLabelsSized(p: Bytes, at: nat)
    requires ReadLabels(p, at).Some?
    ensures ReadLabels(p, at).value.0.Sized(1, 63)
    decreases |p| - at
  {
    if p[at] != 0 {
      ReadLabelsSized(p, at + 1 + p[at]);
    }
  }

  lemma {:induction false} SizedFrom(ls: Labels)
    requires ls.Sized(1, 63)
    ensures ls.Sized(0, 63)
  {
    if ls.Label? {
      SizedFrom(ls.rest);
    }
  }

  lemma SizedReadsBack(id: nat, ls: Labels, qtype: nat)
    requires id < 0x1_0000 && qtype < 0x1_0000 && ls.Sized(0, UCHAR_MAX) && ls.Sized(1, 63)
    ensures Read(Packet(id, ls, qtype)) == Some(Asked(id, ls, qtype))
  {
    SizedFrom(ls);
    ReadFields(id, ls, qtype);
    CutNothing(ls);
    var p := Packet(id, ls, qtype);
    assert p == Header(id) + (Wire(ls) + BigEndian(qtype) + BigEndian(CLASS_IN));
    ReadHeader(p, id, Wire(ls) + BigEndian(qtype) + BigEndian(CLASS_IN));
  }

  /** Round trip, exactly: whatever labels the encoder accepts, the packet reads back as
      the question asked iff every label holds 1 to 63 bytes. */
  lemma PacketReadsBack(id: nat, ls: Labels, qtype: nat)
    requires id < 0x1_0000 && qtype < 0x1_0000 && ls.Sized(0, UCHAR_MAX)
    ensures Read(Packet(id, ls, qtype)) == Some(Asked(id, ls, qtype)) <==> ls.Sized(1, 63)
  {
    var p := Packet(id, ls, qtype);
    if ls.Sized(1, 63) {
      SizedReadsBack(id, ls, qtype);
    } else if ReadLabels(p, HEADER_SIZE).Some? {
      ReadLabelsSized(p, HEADER_SIZE);
    }
  }
}
