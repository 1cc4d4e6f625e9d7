/** What each random number of dnsblast decides (dnsblast.c:89-132, 164-220 and 485-490): the
    characters of a name, whether the last question is repeated, and every byte the fuzzer
    changes, in each packet of a run. */
module DnsDraws {
  import opened Octets
  import opened DnsName
  import opened DnsSampler
  import opened DnsQuestion
  import opened DnsTrace

  // ---------------------------------------------------------------- names

  /** charset_alnum, as the source spells it. */
  const CHARSET: string := "abcdefghijklmnopqrstuvwxyz0123456789"

  lemma AlnumExact(r: nat)
    ensures |CHARSET| == 36 && Alnum(r) == CHARSET[r % 36] as int
  {
    LettersInCharset();
    DigitsInCharset();
  }

  lemma LettersInCharset()
    ensures |CHARSET| == 36 && forall k :: 0 <= k < 26 ==> CHARSET[k] as int == 97 + k
  {
  }

  lemma DigitsInCharset()
    ensures |CHARSET| == 36 && forall k :: 26 <= k < 36 ==> CHARSET[k] as int == 48 + (k - 26)
  {
  }

  /** The number a string of decimal digits stands for. */
  function Value(digits: Bytes): int {
    if digits == [] then 0 else 10 * Value(digits[..|digits| - 1]) + digits[|digits| - 1] as int - 48
  }

  predicate Digits(d: Bytes) {
    && 1 <= |d| && (forall i :: 0 <= i < |d| ==> 48 <= d[i] <= 57)
    && (|d| > 1 ==> d[0] != 48)
  }

  /** The decimals of n read back as n, without leading zeros. */
  lemma {:induction false} DecimalReads(n: nat)
    requires n < 256
    ensures Digits(Decimal(n)) && Value(Decimal(n)) == n && (n > 0 ==> Decimal(n)[0] != 48)
  {
    if n >= 10 {
      DecimalReads(n / 10);
      var d := Decimal(n / 10);
      assert Decimal(n)[..|d|] == d;
    } else {
      assert Decimal(n)[..0] == [];
    }
  }

  /** Four characters of the charset by the two halves of two draws, and "com". */
  predicate NameDrawn(name: Bytes, src: Source, c: nat) {
    match Split(name, 0)
    case Label(four, Label(com, End)) =>
      && com == [99, 111, 109] && |four| == 4 && |CHARSET| == 36
      && four[0] == CHARSET[src.at(c) % 36] as int && four[1] == CHARSET[src.at(c) / 65536 % 36] as int
      && four[2] == CHARSET[src.at(c + 1) % 36] as int && four[3] == CHARSET[src.at(c + 1) / 65536 % 36] as int
    case _ => false
  }

  predicate OctetDrawn(octet: Bytes, r: nat) {
    Digits(octet) && Value(octet) == r % 256
  }

  /** Four numbers, each the low byte of the next draw. */
  predicate QuadDrawn(name: Bytes, src: Source, c: nat) {
    match Split(name, 0)
    case Label(a, Label(b, Label(d, Label(e, End)))) =>
      OctetDrawn(a, src.at(c)) && OctetDrawn(b, src.at(c + 1))
      && OctetDrawn(d, src.at(c + 2)) && OctetDrawn(e, src.at(c + 3))
    case _ => false
  }

  lemma NameExact(src: Source, c: nat)
    ensures NameDrawn(RandomName(src, c), src, c)
  {
    RandomNameAskable(src, c);
    AlnumExact(src.at(c));
    AlnumExact(src.at(c) / 65536);
    AlnumExact(src.at(c + 1));
    AlnumExact(src.at(c + 1) / 65536);
  }

  lemma QuadExact(src: Source, c: nat)
    ensures QuadDrawn(RandomQuad(src, c), src, c)
  {
    RandomQuadAskable(src, c);
    DecimalReads(src.at(c) % 256);
    DecimalReads(src.at(c + 1) % 256);
    DecimalReads(src.at(c + 2) % 256);
    DecimalReads(src.at(c + 3) % 256);
  }

  /** A new question: the type drawn first, then a dotted quad of four more draws for PTR and
      a random name of two for every other type. */
  lemma QuestionDrawn(src: Source, c: nat)
    ensures var d, (qtype, c1) := RandomQuestion(src, c), RandomType(src, c);
            && d.qtype == qtype
            && (qtype == 12 ==> QuadDrawn(d.name, src, c1) && d.cursor == c1 + 4)
            && (qtype != 12 ==> NameDrawn(d.name, src, c1) && d.cursor == c1 + 2)
  {
    NameExact(src, RandomType(src, c).1);
    QuadExact(src, RandomType(src, c).1);
  }

  // ---------------------------------------------------------------- repeated questions

  /** One turn: name and type are kept iff the draw is at most the threshold; otherwise a new
      question is drawn behind it. */
  lemma TurnDraws(src: Source, last: Draw)
    requires last.qtype < 0x1_0000
    ensures var d := NextQuestion(src, last);
            if src.at(last.cursor) <= src.Share(13854) then d == last.(cursor := last.cursor + 1)
            else d == RandomQuestion(src, last.cursor + 1) && d.cursor >= last.cursor + 4 && Askable(d.name)
  {
    RandomQuestionAskable(src, last.cursor + 1);
  }

  /** So it is with every question of an unfuzzed run. */
  lemma QuestionRepeats(src: Source, i: nat)
    ensures var last, d := DrawAfter(src, i), QuestionAt(src, i);
            if src.at(last.cursor) <= src.Share(13854) then d == last.(cursor := last.cursor + 1)
            else d == RandomQuestion(src, last.cursor + 1) && d.cursor >= last.cursor + 4 && Askable(d.name)
  {
    TurnDraws(src, DrawAfter(src, i));
    QuestionIsNext(src, i);
  }

  lemma QuestionIsNext(src: Source, i: nat)
    ensures QuestionAt(src, i) == NextQuestion(src, DrawAfter(src, i))
  {
  }

  /** Two packets of the same question. */
  lemma SameQuestion(id: nat, id': nat, d: Draw, d': Draw)
    requires id < 0x1_0000 && id' < 0x1_0000 && Sendable(d) && Sendable(d')
    requires d.name == d'.name && d.qtype == d'.qtype
    ensures var p, p' := PlainPacket(id, d), PlainPacket(id', d');
            |p| == |p'| >= 2 && p[2..] == p'[2..] && p'[..2] == [id' % 256, id' / 256]
  {
    SplitSized(d.name, 0);
    var ls := Split(d.name, 0);
    var body := Wire(ls) + BigEndian(d.qtype) + BigEndian(CLASS_IN);
    assert PlainPacket(id, d) == Header(id) + body && PlainPacket(id', d') == Header(id') + body;
    assert Header(id)[2..] == Header(id')[2..];
  }

  /** In every unfuzzed run, a packet whose draw is at most the threshold is the packet before
      it with the next id: no other byte differs. */
  lemma RepeatedPacket(src: Source, n: nat, i: nat)
    requires i + 1 < n && src.at(QuestionAt(src, i).cursor) <= src.Share(13854)
    ensures var p, p' := Trace(src, false, n)[i], Trace(src, false, n)[i + 1];
            && |p| == |p'| >= 2 && p[2..] == p'[2..]
            && p'[..2] == [(i + 1) % 0x1_0000 % 256, (i + 1) % 0x1_0000 / 256]
  {
    TraceIsPlain(src, n, i);
    TraceIsPlain(src, n, i + 1);
    QuestionRepeats(src, i + 1);
    SameQuestion(i % 0x1_0000, (i + 1) % 0x1_0000, QuestionAt(src, i), QuestionAt(src, i + 1));
  }

  // ---------------------------------------------------------------- the fuzzer

  /** Round k of the fuzzer started at position c: the byte it hits, and what it writes. */
  function HitAt(src: Source, c: nat, size: nat, k: nat): nat
    requires 0 < size
  {
    src.at(c + 3 * k) % size
  }

  function WrittenAt(src: Source, c: nat, k: nat): Byte {
    src.at(c + 3 * k + 1) % 255
  }

  /** p halved k times. */
  function Halved(p: nat, k: nat): nat {
    if k == 0 then p else Halved(p / 2, k - 1)
  }

  /** Round k is followed by another one. */
  predicate GoesOn(src: Source, c: nat, p: nat, k: nat) {
    src.at(c + 3 * k + 2) < Halved(p, k) && Halved(p, k + 1) > 0
  }

  /** Of n rounds, round k is the last to hit byte j. */
  predicate LastHit(src: Source, c: nat, size: nat, n: nat, j: nat, k: nat)
    requires 0 < size
  {
    k < n && HitAt(src, c, size, k) == j && forall m :: k < m < n ==> HitAt(src, c, size, m) != j
  }

  predicate Missed(src: Source, c: nat, size: nat, n: nat, j: nat)
    requires 0 < size
  {
    forall m :: 0 <= m < n ==> HitAt(src, c, size, m) != j
  }

  /** Exactly n rounds of fuzzing turn q into q': every byte hit holds what the last round to
      hit it wrote, and every other byte is as it was. */
  ghost predicate FuzzedBy(src: Source, c: nat, p: nat, size: nat, q: Bytes, q': Bytes, n: nat)
    requires 0 < size
  {
    && 1 <= n && |q'| == |q|
    && (forall k: nat :: k + 1 < n ==> GoesOn(src, c, p, k))
    && !GoesOn(src, c, p, n - 1)
    && (forall j: nat, k: nat :: j < |q| && LastHit(src, c, size, n, j, k) ==> q'[j] == WrittenAt(src, c, k))
    && (forall j: nat :: j < |q| && Missed(src, c, size, n, j) ==> q'[j] == q[j])
  }

  /** Some round is the last to hit a byte that was not missed. */
  lemma {:induction false} SomeLastHit(src: Source, c: nat, size: nat, n: nat, j: nat) returns (k: nat)
    requires 0 < size && !Missed(src, c, size, n, j)
    ensures LastHit(src, c, size, n, j, k)
    decreases n
  {
    if HitAt(src, c, size, n - 1) == j {
      k := n - 1;
    } else {
      k := SomeLastHit(src, c, size, n - 1, j);
    }
  }

  /** The draws determine the number of rounds and every byte. */
  lemma FuzzDetermined(src: Source, c: nat, p: nat, size: nat, q: Bytes, q1: Bytes, n1: nat, q2: Bytes, n2: nat)
    requires 0 < size
    requires FuzzedBy(src, c, p, size, q, q1, n1) && FuzzedBy(src, c, p, size, q, q2, n2)
    ensures n1 == n2 && q1 == q2
  {
    forall j: nat | j < |q|
      ensures q1[j] == q2[j]
    {
      if !Missed(src, c, size, n1, j) {
        var k := SomeLastHit(src, c, size, n1, j);
      }
    }
  }

  /** The round after the first ones, seen from behind the first. */
  lemma RoundShift(src: Source, c: nat, p: nat, size: nat, k: nat)
    requires 0 < size
    ensures HitAt(src, c + 3, size, k) == HitAt(src, c, size, k + 1)
    ensures WrittenAt(src, c + 3, k) == WrittenAt(src, c, k + 1)
    ensures GoesOn(src, c + 3, p / 2, k) <==> GoesOn(src, c, p, k + 1)
  {
    assert c + 3 + 3 * k == c + 3 * (k + 1);
  }

  /** The rounds behind the first one miss a byte iff no later round hits it. */
  lemma LaterHits(src: Source, c: nat, p: nat, size: nat, n: nat, j: nat)
    requires 0 < size
    ensures Missed(src, c + 3, size, n, j) <==> forall m :: 1 <= m < n + 1 ==> HitAt(src, c, size, m) != j
  {
    if Missed(src, c + 3, size, n, j) {
      forall m | 1 <= m < n + 1
        ensures HitAt(src, c, size, m) != j
      {
        RoundShift(src, c, p, size, m - 1);
      }
    }
    if forall m :: 1 <= m < n + 1 ==> HitAt(src, c, size, m) != j {
      var rest := c + 3;
      forall m | 0 <= m < n
        ensures HitAt(src, rest, size, m) != j
      {
        RoundShift(src, c, p, size, m);
      }
    }
  }

  lemma LaterLastHit(src: Source, c: nat, p: nat, size: nat, n: nat, j: nat, k: nat)
    requires 0 < size && 0 < k && LastHit(src, c, size, n + 1, j, k)
    ensures LastHit(src, c + 3, size, n, j, k - 1) && WrittenAt(src, c + 3, k - 1) == WrittenAt(src, c, k)
  {
    var rest := c + 3;
    RoundShift(src, c, p, size, k - 1);
    forall m | k - 1 < m < n
      ensures HitAt(src, rest, size, m) != j
    {
      RoundShift(src, c, p, size, m);
    }
  }

  lemma FuzzedByFirst(src: Source, c: nat, p: nat, size: nat, q: Bytes, q': Bytes, n: nat)
    requires 0 < size <= |q| && GoesOn(src, c, p, 0)
    requires FuzzedBy(src, c + 3, p / 2, size, q[HitAt(src, c, size, 0) := WrittenAt(src, c, 0)], q', n)
    ensures FuzzedBy(src, c, p, size, q, q', n + 1)
  {
    forall k: nat | k + 1 < n + 1
      ensures GoesOn(src, c, p, k)
    {
      if k > 0 {
        RoundShift(src, c, p, size, k - 1);
      }
    }
    RoundShift(src, c, p, size, n - 1);
    forall j: nat, k: nat | j < |q| && LastHit(src, c, size, n + 1, j, k)
      ensures q'[j] == WrittenAt(src, c, k)
    {
      if k > 0 {
        LaterLastHit(src, c, p, size, n, j, k);
      } else {
        LaterHits(src, c, p, size, n, j);
      }
    }
    forall j: nat | j < |q| && Missed(src, c, size, n + 1, j)
      ensures q'[j] == q[j]
    {
      LaterHits(src, c, p, size, n, j);
      assert HitAt(src, c, size, 0) != j;
    }
  }

  /** One round of the recursion. */
  lemma FuzzedUnfolds(src: Source, c: nat, q: Bytes, size: nat, p: nat)
    requires 0 < size <= |q|
    ensures var q1 := q[HitAt(src, c, size, 0) := WrittenAt(src, c, 0)];
            Fuzzed(src, c, q, size, p)
            == if GoesOn(src, c, p, 0) then
                 var rest := Fuzzed(src, c + 3, q1, size, p / 2);
                 (rest.0, rest.1, rest.2 + 1)
               else (q1, c + 3, 1)
  {
    assert Halved(p, 1) == Halved(p / 2, 0) == p / 2;
  }

  lemma FuzzedOnce(src: Source, c: nat, p: nat, size: nat, q: Bytes)
    requires 0 < size <= |q| && !GoesOn(src, c, p, 0)
    ensures FuzzedBy(src, c, p, size, q, q[HitAt(src, c, size, 0) := WrittenAt(src, c, 0)], 1)
  {
  }

  /** What fuzz() leaves, where in the random numbers, and after how many rounds. */
  ghost predicate FuzzResult(src: Source, c: nat, p: nat, size: nat, q: Bytes, r: (Bytes, nat, nat))
    requires 0 < size
  {
    FuzzedBy(src, c, p, size, q, r.0, r.2) && r.1 == c + 3 * r.2
  }

  lemma ResultFirst(src: Source, c: nat, p: nat, size: nat, q: Bytes, rest: (Bytes, nat, nat))
    requires 0 < size <= |q| && GoesOn(src, c, p, 0)
    requires FuzzResult(src, c + 3, p / 2, size, q[HitAt(src, c, size, 0) := WrittenAt(src, c, 0)], rest)
    ensures FuzzResult(src, c, p, size, q, (rest.0, rest.1, rest.2 + 1))
  {
    FuzzedByFirst(src, c, p, size, q, rest.0, rest.2);
  }

  /** fuzz(), exactly: which rounds there are, what they leave in each byte, and how many
      random numbers they use up. */
  lemma {:induction false} FuzzExact(src: Source, c: nat, q: Bytes, size: nat, p: nat)
    requires 0 < size <= |q|
    ensures FuzzResult(src, c, p, size, q, Fuzzed(src, c, q, size, p))
    decreases p
  {
    FuzzedUnfolds(src, c, q, size, p);
    if GoesOn(src, c, p, 0) {
      assert p / 2 < p;
      var q1 := q[HitAt(src, c, size, 0) := WrittenAt(src, c, 0)];
      FuzzExact(src, c + 3, q1, size, p / 2);
      ResultFirst(src, c, p, size, q, Fuzzed(src, c + 3, q1, size, p / 2));
    } else {
      FuzzedOnce(src, c, p, size, q);
    }
  }

  // ---------------------------------------------------------------- fuzzed packets

  /** The packet for question d over a header that fuzzing may have changed: everything but
      the id is as the packet before left it. */
  function Carried(header: Bytes, id: nat, d: Draw): (r: Bytes)
    requires HEADER_SIZE <= |header| && id < 0x1_0000 && Sendable(d)
  {
    SplitSized(d.name, 0);
    [id % 256, id / 256] + header[2..HEADER_SIZE] + Wire(Split(d.name, 0)) + BigEndian(d.qtype) + BigEndian(CLASS_IN)
  }

  lemma FilledCarries(q: Bytes, id: nat, d: Draw)
    requires |q| == MAX_UDP_DATA_SIZE && id < 0x1_0000 && Sendable(d)
    ensures Filled(q, id, d)[..PacketSize(d.name)] == Carried(q, id, d)
  {
    SplitSized(d.name, 0);
    WireLength(d.name, 0);
    assert |Carried(q, id, d)| == PacketSize(d.name);
    assert Filled(q, id, d) == Carried(q, id, d) + q[PacketSize(d.name)..];
  }

  /** Over an intact header it is the plain packet. */
  lemma CarriedPlain(header: Bytes, id: nat, d: Draw)
    requires HEADER_SIZE <= |header| && id < 0x1_0000 && Sendable(d)
    requires header[2..HEADER_SIZE] == Header(0)[2..HEADER_SIZE]
    ensures Carried(header, id, d) == PlainPacket(id, d)
  {
    SplitSized(d.name, 0);
    assert Header(id) == [id % 256, id / 256] + Header(0)[2..HEADER_SIZE];
  }

  /** Hits stay inside the packet, so the rest of the buffer does not matter. */
  lemma FuzzedFront(src: Source, c: nat, p: nat, size: nat, q: Bytes, q': Bytes, n: nat)
    requires 0 < size <= |q| && FuzzedBy(src, c, p, size, q, q', n)
    ensures FuzzedBy(src, c, p, size, q[..size], q'[..size], n)
  {
  }

  /** blast() with the fuzz flag: the packet is the question's, changed by the rounds that the
      draws ask for, three draws each; the buffer it leaves starts with that packet. */
  lemma FuzzedBlast(src: Source, q: Bytes, id: nat, d: Draw) returns (n: nat)
    requires |q| == MAX_UDP_DATA_SIZE && id < 0x1_0000 && Sendable(d)
    ensures var (g, packet) := Blasted(src, true, q, id, d);
            && FuzzedBy(src, d.cursor, src.Share(500), PacketSize(d.name), Carried(q, id, d), packet, n)
            && g.last == d.(cursor := d.cursor + 3 * n)
            && packet == g.question[..PacketSize(d.name)]
  {
    var size, filled := PacketSize(d.name), Filled(q, id, d);
    FuzzExact(src, d.cursor, filled, size, src.Share(500));
    var (q', _, rounds) := Fuzzed(src, d.cursor, filled, size, src.Share(500));
    FuzzedFront(src, d.cursor, src.Share(500), size, filled, q', rounds);
    FilledCarries(q, id, d);
    n := rounds;
  }

  /** Over an intact header, with a third draw that ends the fuzzing at once: one byte of the
      plain packet is overwritten. */
  lemma FuzzedOnceBlast(src: Source, q: Bytes, id: nat, d: Draw)
    requires |q| == MAX_UDP_DATA_SIZE && id < 0x1_0000 && Sendable(d)
    requires q[2..HEADER_SIZE] == Header(0)[2..HEADER_SIZE] && src.at(d.cursor + 2) >= src.Share(500)
    ensures var (g, packet) := Blasted(src, true, q, id, d);
            && |PlainPacket(id, d)| == PacketSize(d.name) && g.last.cursor == d.cursor + 3
            && packet == PlainPacket(id, d)[src.at(d.cursor) % PacketSize(d.name) := src.at(d.cursor + 1) % 255]
  {
    var size, p := PacketSize(d.name), src.Share(500);
    var n := FuzzedBlast(src, q, id, d);
    CarriedPlain(q, id, d);
    FilledCarries(q, id, d);
    FuzzedOnce(src, d.cursor, p, size, PlainPacket(id, d));
    FuzzDetermined(src, d.cursor, p, size, PlainPacket(id, d), Blasted(src, true, q, id, d).1, n,
                   PlainPacket(id, d)[HitAt(src, d.cursor, size, 0) := WrittenAt(src, d.cursor, 0)], 1);
  }

  predicate SameHeader(a: Bytes, b: Bytes) {
    HEADER_SIZE <= |a| && HEADER_SIZE <= |b| && a[2..HEADER_SIZE] == b[2..HEADER_SIZE]
  }

  /** Turn i of a fuzzed run over a header: n rounds of fuzzing, and the next draw behind them. */
  ghost predicate FuzzedTurn(src: Source, i: nat, last: Draw, header: Bytes, last': Draw, packet: Bytes, n: nat) {
    && Sendable(last) && HEADER_SIZE <= |header|
    && var d := NextQuestion(src, last);
    && Sendable(d)
    && FuzzedBy(src, d.cursor, src.Share(500), PacketSize(d.name), Carried(header, i % 0x1_0000, d), packet, n)
    && last' == d.(cursor := d.cursor + 3 * n)
  }

  lemma TurnFuzzed(src: Source, i: nat, g: Gen, header: Bytes) returns (n: nat)
    requires GenOk(g) && SameHeader(header, g.question)
    ensures var (g', packet) := Turn(src, true, i, g); FuzzedTurn(src, i, g.last, header, g'.last, packet, n)
  {
    NextSendable(src, g.last);
    var d := NextQuestion(src, g.last);
    n := FuzzedBlast(src, g.question, i % 0x1_0000, d);
    assert Carried(header, i % 0x1_0000, d) == Carried(g.question, i % 0x1_0000, d);
  }

  /** The buffer starts with the packet. */
  lemma TurnKeepsHeader(src: Source, i: nat, g: Gen)
    requires GenOk(g)
    ensures var (g', packet) := Turn(src, true, i, g); SameHeader(packet, g'.question)
  {
    NextSendable(src, g.last);
    var _ := FuzzedBlast(src, g.question, i % 0x1_0000, NextQuestion(src, g.last));
  }

  /** What fuzzed turns do, over any states and packets they make. */
  ghost predicate Turns(src: Source, states: nat -> Gen, packets: nat -> Bytes) {
    && states(0) == Start()
    && (forall i: nat {:trigger Pick(i)} :: Pick(i) ==>
          GenOk(states(i)) && (states(i + 1), packets(i)) == Turn(src, true, i, states(i)))
  }

  lemma FuzzedTurns(src: Source)
    ensures Turns(src, States(src, true), Packets(src, true))
  {
    forall i: nat | Pick(i)
      ensures GenOk(States(src, true)(i))
      ensures (States(src, true)(i + 1), Packets(src, true)(i)) == Turn(src, true, i, States(src, true)(i))
    {
      StatesNext(src, true, i);
      PacketsNext(src, true, i);
    }
  }

  lemma HeaderNext(src: Source, states: nat -> Gen, packets: nat -> Bytes, i: nat)
    requires Turns(src, states, packets)
    ensures SameHeader(packets(i), states(i + 1).question)
  {
    assert Pick(i);
    TurnKeepsHeader(src, i, states(i));
  }

  /** The header that packet i of a fuzzed run is built over. */
  function HeaderBefore(packets: nat -> Bytes, i: nat): Bytes {
    if i == 0 then Header(0) else packets(i - 1)
  }

  /** The buffer and the last packet share their header. */
  lemma HeaderCarried(src: Source, states: nat -> Gen, packets: nat -> Bytes, i: nat)
    requires Turns(src, states, packets)
    ensures SameHeader(HeaderBefore(packets, i), states(i).question)
  {
    if i > 0 {
      HeaderNext(src, states, packets, i - 1);
    }
  }

  lemma TurnsFuzz(src: Source, states: nat -> Gen, packets: nat -> Bytes, i: nat) returns (n: nat)
    requires Turns(src, states, packets)
    ensures FuzzedTurn(src, i, states(i).last, HeaderBefore(packets, i), states(i + 1).last, packets(i), n)
  {
    assert Pick(i);
    HeaderCarried(src, states, packets, i);
    n := TurnFuzzed(src, i, states(i), HeaderBefore(packets, i));
  }

  /** Packet i of these, made with this many rounds. */
  ghost predicate FuzzedAt(src: Source, states: nat -> Gen, packets: seq<Bytes>, i: nat, rounds: nat)
    requires i < |packets|
  {
    FuzzedTurn(src, i, states(i).last, if i == 0 then Header(0) else packets[i - 1], states(i + 1).last, packets[i],
               rounds)
  }

  lemma FuzzedThere(src: Source, states: nat -> Gen, packets: seq<Bytes>, i: nat, header: Bytes, packet: Bytes,
                    rounds: nat)
    requires i < |packets| && packet == packets[i] && header == if i == 0 then Header(0) else packets[i - 1]
    requires FuzzedTurn(src, i, states(i).last, header, states(i + 1).last, packet, rounds)
    ensures FuzzedAt(src, states, packets, i, rounds)
  {
  }

  lemma LogAt(packets: nat -> Bytes, log: seq<Bytes>, i: nat)
    requires log == Collect(packets, |log|) && i < |log|
    ensures log[i] == packets(i) && (if i == 0 then Header(0) else log[i - 1]) == HeaderBefore(packets, i)
  {
    CollectAt(packets, |log|, i);
    if i > 0 {
      CollectAt(packets, |log|, i - 1);
    }
  }

  lemma TurnsFuzzAll(src: Source, states: nat -> Gen, packets: nat -> Bytes, log: seq<Bytes>, i: nat)
    returns (rounds: nat)
    requires Turns(src, states, packets) && log == Collect(packets, |log|) && i < |log|
    ensures FuzzedAt(src, states, log, i, rounds)
  {
    rounds := TurnsFuzz(src, states, packets, i);
    LogAt(packets, log, i);
    FuzzedThere(src, states, log, i, HeaderBefore(packets, i), packets(i), rounds);
  }

  lemma TraceIsCollected(src: Source, n: nat)
    ensures var log := Trace(src, true, n); |log| == n && log == Collect(Packets(src, true), |log|)
  {
  }

  /** Every packet of every fuzzed run: question i over the header of the packet before it,
      changed by some rounds; question i + 1 is drawn behind their draws. Damage to the
      header lasts, everything else is written anew. */
  lemma FuzzedTrace(src: Source, n: nat, i: nat)
    requires i < n
    ensures exists rounds :: FuzzedAt(src, States(src, true), Trace(src, true, n), i, rounds)
  {
    FuzzedTurns(src);
    TraceIsCollected(src, n);
    var rounds := TurnsFuzzAll(src, States(src, true), Packets(src, true), Trace(src, true, n), i);
  }
}
