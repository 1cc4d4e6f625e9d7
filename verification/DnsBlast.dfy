/** dnsblast's run (dnsblast.c:13-37 and 89-514): the packets it sends do not depend on
    clock, poll or replies; it keeps to its rate; its table of send times answers for
    the last 65536 packets; its fuzzer and its drain phase come to an end. */
module DnsBlast {
  import opened Octets
  import opened DnsName
  import opened DnsSampler
  import opened DnsQuestion
  import opened DnsTrace

  // ---------------------------------------------------------------- the environment

  datatype Polled = TimedOut | Ready | Failed

  /** What recv() yields; a reply through the first two bytes of its buffer. */
  datatype Received = Nothing | Interrupted | Reply(first: Byte, second: Byte)

  /** Clock and socket. `budget` bounds the replies, interruptions, refusals and idle
      wake-ups still to come: any finite number. In a punctual world reading the clock,
      sending and receiving take no time, and poll is at most a tick late; it may still
      be interrupted. `stalled` adds up the time spent in interrupted polls. */
  class World {
    const punctual: bool
    var now: nat
    var budget: nat
    ghost var stalled: nat
    ghost var sent: seq<Bytes>
    /** The replies received, through their first two bytes. */
    ghost var inbox: seq<(Byte, Byte)>
    /** How often recv() has found nothing more to read. */
    ghost var dry: nat
    /** How often poll() has reported something to read. */
    ghost var woken: nat

    constructor (punctual: bool, now: nat, budget: nat)
      ensures this.punctual == punctual && this.now == now && this.budget == budget
      ensures sent == [] && inbox == [] && dry == 0 && stalled == 0 && woken == 0
    {
      this.punctual, this.now, this.budget := punctual, now, budget;
      sent, inbox, dry, stalled, woken := [], [], 0, 0, 0;
    }

    /** get_milliseconds, and any time spent elsewhere. */
    method Milliseconds() returns (t: nat)
      modifies `now
      ensures old(now) <= now == t && (punctual ==> now == old(now))
    {
      if !punctual {
        var spent :| 0 <= spent;
        now := now + spent;
      }
      t := now;
    }

    /** A timeout takes at least as long as asked for. */
    method Poll(timeout: nat) returns (r: Polled)
      modifies `now, `budget, `stalled, `woken
      ensures old(now) <= now && budget <= old(budget)
      ensures r == TimedOut ==> old(now) + timeout <= now && (budget < old(budget) || old(now) < now)
      ensures r != TimedOut ==> budget < old(budget)
      ensures stalled == old(stalled) + (if r == Failed then now - old(now) else 0)
      ensures woken == old(woken) + (if r == Ready then 1 else 0)
      ensures punctual ==> now <= old(now) + timeout + (if r == TimedOut then 1 else 0)
    {
      ghost var start := now;
      var early, late :| 0 <= early && 0 <= late;
      r := TimedOut;
      if budget > 0 {
        r := *;
        budget := budget - 1;
      }
      if r == TimedOut {
        now := now + timeout + (if punctual then 1 else late + 1);
      } else {
        now := now + (if punctual && timeout < early then timeout else early);
      }
      if r == Failed {
        stalled := stalled + (now - start);
      } else if r == Ready {
        woken := woken + 1;
      }
    }

    method Recv() returns (r: Received)
      modifies `now, `budget, `inbox, `dry
      ensures old(now) <= now && (punctual ==> now == old(now))
      ensures budget <= old(budget) && (r != Nothing ==> budget < old(budget))
      ensures inbox == old(inbox) + (if r.Reply? then [(r.first, r.second)] else [])
      ensures dry == old(dry) + (if r == Nothing then 1 else 0)
    {
      var _ := Milliseconds();
      r := Nothing;
      if budget > 0 {
        r := *;
        budget := budget - 1;
      }
      if r.Reply? {
        inbox := inbox + [(r.first, r.second)];
      } else if r == Nothing {
        dry := dry + 1;
      }
    }

    method SendTo(packet: Bytes) returns (ok: bool)
      modifies `now, `budget, `sent
      ensures old(now) <= now && budget <= old(budget) && (!ok ==> budget < old(budget))
      ensures punctual ==> now == old(now)
      ensures sent == old(sent) + (if ok then [packet] else [])
    {
      var _ := Milliseconds();
      ok := true;
      if budget > 0 {
        ok := *;
        budget := budget - 1;
      }
      if ok {
        sent := sent + [packet];
      }
    }
  }

  // ---------------------------------------------------------------- drawing a question

  method GetRandomName(rng: Rng) returns (name: Bytes)
    modifies rng
    ensures name == RandomName(rng.src, old(rng.cursor)) && rng.cursor == old(rng.cursor) + 2
  {
    var r1 := rng.Rand();
    var r2 := rng.Rand();
    name := [Alnum(r1), Alnum(r1 / 65536), Alnum(r2), Alnum(r2 / 65536), DOT, 99, 111, 109];
  }

  /** The sprintf() of get_random_question. */
  method GetRandomQuad(rng: Rng) returns (name: Bytes)
    modifies rng
    ensures name == RandomQuad(rng.src, old(rng.cursor)) && rng.cursor == old(rng.cursor) + 4
  {
    var r1 := rng.Rand();
    var r2 := rng.Rand();
    var r3 := rng.Rand();
    var r4 := rng.Rand();
    name := Decimal(r1 % 256) + ([DOT] + (Decimal(r2 % 256) + ([DOT]
      + (Decimal(r3 % 256) + ([DOT] + Decimal(r4 % 256))))));
  }

  method GetRandomQuestion(rng: Rng) returns (name: Bytes, qtype: nat)
    modifies rng
    ensures Draw(name, qtype, rng.cursor) == RandomQuestion(rng.src, old(rng.cursor))
  {
    qtype := GetRandomType(rng);
    if qtype == TYPE_PTR {
      name := GetRandomQuad(rng);
    } else {
      name := GetRandomName(rng);
    }
  }

  // ---------------------------------------------------------------- filling the packet

  /** One round of fuzz()'s loop: a random byte, and whether to go on with which p. */
  method FuzzRound(question: array<Byte>, size: nat, rng: Rng, p: nat) returns (again: bool, p': nat)
    requires 0 < size <= question.Length
    modifies question, rng
    ensures rng.cursor == old(rng.cursor) + 3
    ensures var c := old(rng.cursor);
            && question[..] == old(question[..])[rng.src.at(c) % size := rng.src.at(c + 1) % 255]
            && again == (rng.src.at(c + 2) < p && p / 2 > 0) && (again ==> p' == p / 2)
  {
    var i := rng.Rand();
    var v := rng.Rand();
    question[i % size] := v % 255;
    var r := rng.Rand();
    again, p' := false, p;
    if r < p {
      p' := p / 2;
      again := p' > 0;
    }
  }

  /** fuzz(): a do-while loop. */
  method Fuzz(question: array<Byte>, size: nat, rng: Rng)
    requires 0 < size <= question.Length
    modifies question, rng
    ensures var (q, c, _) := Fuzzed(rng.src, old(rng.cursor), old(question[..]), size, rng.src.Share(500));
            question[..] == q && rng.cursor == c
  {
    var p := rng.src.Share(500);
    ghost var all := Fuzzed(rng.src, rng.cursor, question[..], size, p);
    var again := true;
    while again
      invariant again ==> var rest := Fuzzed(rng.src, rng.cursor, question[..], size, p);
                          rest.0 == all.0 && rest.1 == all.1
      invariant !again ==> question[..] == all.0 && rng.cursor == all.1
      decreases if again then 1 + p else 0
    {
      again, p := FuzzRound(question, size, rng, p);
    }
  }

  /** PUT_HTONS. */
  method PutHtons(a: array<Byte>, at: nat, val: nat) returns (end: nat)
    requires at + 2 <= a.Length && val < 0x1_0000
    modifies a
    ensures end == at + 2 && a[at..end] == BigEndian(val) && a[..at] == old(a[..at]) && a[end..] == old(a[end..])
  {
    a[at] := val / 256;
    a[at + 1] := val % 256;
    end := at + 2;
  }

  /** The size encode_name is told (dnsblast.c:108-114): sizeof of a pointer less the
      header and two, in size_t. */
  const ENCODED_SIZE: nat := (8 - HEADER_SIZE) % SIZE_MOD - 2

  /** Sendable names always encode: none is long enough to fail, and the budget is
      next to unlimited. */
  lemma SendableEncodes(d: Draw)
    requires Sendable(d)
    ensures Fits(true, ENCODED_SIZE - 1, Split(d.name, 0))
  {
    SplitSized(d.name, 0);
    SplitSizes(d.name, 0);
    FailsOnlyOnLongLabels(ENCODED_SIZE - 1, Split(d.name, 0));
  }

  /** The pieces of the buffer, put together. */
  lemma FilledPieces(q: Bytes, id: nat, d: Draw, r: Bytes)
    requires |q| == MAX_UDP_DATA_SIZE && id < 0x1_0000 && Sendable(d) && |r| == |q|
    requires Split(d.name, 0).Sized(0, UCHAR_MAX)
    requires r[..HEADER_SIZE] == [id % 256, id / 256] + q[2..HEADER_SIZE]
    requires r[HEADER_SIZE..HEADER_SIZE + |d.name| + 2] == Wire(Split(d.name, 0))
    requires r[HEADER_SIZE + |d.name| + 2..HEADER_SIZE + |d.name| + 4] == BigEndian(d.qtype)
    requires r[HEADER_SIZE + |d.name| + 4..PacketSize(d.name)] == BigEndian(CLASS_IN)
    requires r[PacketSize(d.name)..] == q[PacketSize(d.name)..]
    ensures r == Filled(q, id, d)
  {
    var n := HEADER_SIZE + |d.name|;
    assert r == r[..HEADER_SIZE] + r[HEADER_SIZE..n + 2] + r[n + 2..n + 4] + r[n + 4..n + 6] + r[n + 6..];
  }

  /** blast() up to PUT_HTONS of the class. */
  method FillQuestion(question: array<Byte>, id: nat, name: Bytes, qtype: nat) returns (size: nat)
    requires question.Length == MAX_UDP_DATA_SIZE && id < 0x1_0000 && Sendable(Draw(name, qtype, 0))
    modifies question
    ensures size == PacketSize(name)
    ensures question[..] == Filled(old(question[..]), id, Draw(name, qtype, 0))
  {
    ghost var d := Draw(name, qtype, 0);
    SendableEncodes(d);
    WrittenBound(ENCODED_SIZE - 1, name, 0);
    question[0], question[1] := id % 256, id / 256;
    ghost var q1 := question[..];
    var ok, msg := EncodeName(question, HEADER_SIZE, ENCODED_SIZE, name);
    ghost var q2 := question[..];
    msg := PutHtons(question, msg, qtype);
    ghost var q3 := question[..];
    size := PutHtons(question, msg, CLASS_IN);
    ghost var q4 := question[..];
    FilledFrom(old(question[..]), q1, q2, q3, q4, id, d);
  }

  /** The four writes in turn. */
  lemma FilledFrom(q: Bytes, q1: Bytes, q2: Bytes, q3: Bytes, q4: Bytes, id: nat, d: Draw)
    requires id < 0x1_0000 && Sendable(d) && Split(d.name, 0).Sized(0, UCHAR_MAX)
    requires |q| == |q1| == |q2| == |q3| == |q4| == MAX_UDP_DATA_SIZE
    requires q1 == q[0 := id % 256][1 := id / 256]
    requires var n := HEADER_SIZE + |d.name| + 2;
             && q2[..HEADER_SIZE] == q1[..HEADER_SIZE] && q2[n..] == q1[n..]
             && q2[HEADER_SIZE..n] == Wire(Split(d.name, 0))
             && q3[..n] == q2[..n] && q3[n..n + 2] == BigEndian(d.qtype) && q3[n + 2..] == q2[n + 2..]
             && q4[..n + 2] == q3[..n + 2] && q4[n + 2..n + 4] == BigEndian(CLASS_IN) && q4[n + 4..] == q3[n + 4..]
    ensures q4 == Filled(q, id, d)
  {
    var n := HEADER_SIZE + |d.name| + 2;
    assert q4[..HEADER_SIZE] == q3[..n][..HEADER_SIZE] == q2[..HEADER_SIZE];
    assert q1[..HEADER_SIZE] == [id % 256, id / 256] + q[2..HEADER_SIZE];
    assert q4[HEADER_SIZE..n] == q4[..n + 2][HEADER_SIZE..n] == q3[..n][HEADER_SIZE..] == q2[HEADER_SIZE..n];
    assert q4[n..n + 2] == q4[..n + 2][n..] == q3[n..n + 2];
    assert q4[n + 4..] == q3[n + 2..][2..] == q2[n..][4..] == q1[n + 4..] == q[n + 4..];
    FilledPieces(q, id, d, q4);
  }

  // ---------------------------------------------------------------- pacing

  /** (double) pps * elapsed / 1000. */
  function MaxPackets(pps: nat, elapsed: nat): real {
    pps as real * elapsed as real / 1000.0
  }

  /** No more packets are out than the rate asks for. */
  predicate Behind(pps: nat, sent: nat, elapsed: nat) {
    1000 * sent <= pps * elapsed
  }

  lemma MaxPacketsDefines(pps: nat, sent: nat, elapsed: nat)
    ensures Behind(pps, sent, elapsed) <==> sent as real <= MaxPackets(pps, elapsed)
  {
    assert (pps * elapsed) as real == pps as real * elapsed as real;
  }

  lemma BehindLater(pps: nat, sent: nat, elapsed: nat, elapsed': nat)
    requires elapsed <= elapsed' && Behind(pps, sent, elapsed)
    ensures Behind(pps, sent, elapsed')
  {
    assert pps * elapsed' == pps * elapsed + pps * (elapsed' - elapsed);
  }

  /** time_to_wait * 1000. */
  function WaitTime(pps: nat, sent: nat, elapsed: nat): real
    requires 0 < pps
  {
    (sent as real - MaxPackets(pps, elapsed)) / pps as real * 1000.0
  }

  /** The conversion of a double to int; one above int's range has no defined value. */
  function Truncated(x: real): int
    requires x < 2147483648.0
  {
    if x < 0.0 then -(-x).Floor else x.Floor
  }

  /** remaining_time in the sending phase, as throttled_receive first computes it. */
  function Wait(pps: nat, sent: nat, elapsed: nat): nat
    requires 0 < pps && WaitTime(pps, sent, elapsed) < 2147483648.0
  {
    var remaining := Truncated(WaitTime(pps, sent, elapsed));
    if remaining < 0 then 0 else remaining
  }

  lemma WaitTimeDefines(pps: nat, sent: nat, elapsed: nat)
    requires 0 < pps
    ensures WaitTime(pps, sent, elapsed) * pps as real == (1000 * sent - pps * elapsed) as real
  {
    var p, x := pps as real, sent as real - MaxPackets(pps, elapsed);
    assert x / p * 1000.0 * p == x * 1000.0;
    assert (pps * elapsed) as real == p * elapsed as real;
  }

  lemma ScaleLess(pps: nat, x: real, n: int)
    requires 0 < pps
    ensures x < n as real <==> x * pps as real < (n * pps) as real
  {
    assert (n * pps) as real == n as real * pps as real;
  }

  /** The wait is the least one after which the packets sent are within the rate, up
      to one millisecond. */
  lemma WaitIsLeast(pps: nat, sent: nat, elapsed: nat, w: nat)
    requires 0 < pps && WaitTime(pps, sent, elapsed) < 2147483648.0
    ensures Wait(pps, sent, elapsed) <= w <==> 1000 * sent < pps * (elapsed + w + 1)
  {
    var x := WaitTime(pps, sent, elapsed);
    WaitTimeDefines(pps, sent, elapsed);
    ScaleLess(pps, x, w + 1);
    assert (w + 1) * pps == pps * (elapsed + w + 1) - pps * elapsed;
    assert x < (w + 1) as real <==> 1000 * sent - pps * elapsed < (w + 1) * pps;
  }

  /** If the packets before this one were within the rate, the time to wait is at most
      a second, and it is never further behind than the run is old. */
  lemma WaitInRange(pps: nat, sent: nat, elapsed: nat)
    requires 0 < pps && 0 < sent && 1000 * (sent - 1) < pps * (elapsed + 1)
    ensures -(elapsed as real) <= WaitTime(pps, sent, elapsed) < 1001.0
    ensures Wait(pps, sent, elapsed) <= 1000
  {
    var x := WaitTime(pps, sent, elapsed);
    WaitTimeDefines(pps, sent, elapsed);
    ScaleLess(pps, x, 1001);
    var late: int := -(elapsed as int);
    ScaleLess(pps, x, late);
    assert pps * (elapsed + 1) == pps * elapsed + pps;
    assert late * pps == -(pps * elapsed);
  }

  /** x / y, by counting. */
  function Quotient(x: nat, y: nat): nat
    requires 0 < y
  {
    if x < y then 0 else 1 + Quotient(x - y, y)
  }

  lemma {:induction false} QuotientExact(x: nat, y: nat, w: nat)
    requires 0 < y
    ensures Quotient(x, y) <= w <==> x < y * (w + 1)
    decreases x
  {
    if x >= y {
      if w > 0 {
        QuotientExact(x - y, y, w - 1);
        assert y * (w + 1) == y * w + y;
      }
    } else {
      assert y * (w + 1) == y + y * w;
    }
  }

  /** The first millisecond at which this many packets are within the rate. */
  function Due(pps: nat, sent: nat): nat
    requires 0 < pps
  {
    Quotient(1000 * sent, pps)
  }

  lemma DueExact(pps: nat, sent: nat, elapsed: nat)
    requires 0 < pps
    ensures Due(pps, sent) <= elapsed <==> 1000 * sent < pps * (elapsed + 1)
  {
    QuotientExact(1000 * sent, pps, elapsed);
  }

  lemma DueLater(pps: nat, sent: nat, sent': nat)
    requires 0 < pps && sent <= sent'
    ensures Due(pps, sent) <= Due(pps, sent')
  {
    DueExact(pps, sent', Due(pps, sent'));
    DueExact(pps, sent, Due(pps, sent'));
  }

  /** A return after the wait keeps the rate; one at most `late` and a tick after the wait
      is at most that much after the packets are due, or after the moment asked from. */
  lemma WaitPaces(pps: nat, sent: nat, elapsed: nat, late: nat, elapsed': nat)
    requires 0 < pps && WaitTime(pps, sent, elapsed) < 2147483648.0
    requires elapsed + Wait(pps, sent, elapsed) <= elapsed'
    ensures 1000 * sent < pps * (elapsed' + 1)
    ensures elapsed' <= elapsed + Wait(pps, sent, elapsed) + late + 1 ==> AtMostLate(pps, sent, elapsed, late, elapsed')
  {
    var wait := Wait(pps, sent, elapsed);
    WaitIsLeast(pps, sent, elapsed, elapsed' - elapsed);
    if wait > 0 {
      WaitIsLeast(pps, sent, elapsed, wait - 1);
      DueExact(pps, sent, elapsed + wait - 1);
    }
  }

  predicate AtMostLate(pps: nat, sent: nat, elapsed: nat, late: nat, elapsed': nat)
    requires 0 < pps
  {
    elapsed' <= elapsed + late + 1 || elapsed' <= Due(pps, sent) + late + 1
  }

  lemma MoreTime(pps: nat, x: int, e: nat, e': nat)
    requires x < pps * (e + 1) && e <= e'
    ensures x < pps * (e' + 1)
  {
    assert pps * (e' + 1) == pps * (e + 1) + pps * (e' - e);
  }

  // ---------------------------------------------------------------- send times

  /** The last packet before packet n whose id is that of packet k. */
  function LastWithId(k: nat, n: nat): (j: nat)
    requires k < n
    ensures k <= j < n && j % 0x1_0000 == k % 0x1_0000 && n - j <= 0x1_0000
  {
    n - 1 - (n - 1 - k) % 0x1_0000
  }

  /** It is the last one; and it is packet k itself iff fewer than 65536 packets went
      out since. */
  lemma LastWithIdExact(k: nat, n: nat)
    requires k < n
    ensures forall j :: LastWithId(k, n) < j < n ==> j % 0x1_0000 != k % 0x1_0000
    ensures LastWithId(k, n) == k <==> n - 1 - k < 0x1_0000
  {
    forall j | LastWithId(k, n) < j < n
      ensures j % 0x1_0000 != k % 0x1_0000
    {
      assert 0 < j - LastWithId(k, n) < 0x1_0000;
    }
  }

  /** The table is the send history: the slots of the last 65536 packets hold their
      times. */
  ghost predicate Remembers(times: seq<nat>, table: seq<nat>) {
    forall k :: 0 <= k < |times| && |times| - k <= 0x1_0000 ==>
      k % 0x1_0000 < |table| && table[k % 0x1_0000] == times[k]
  }

  /** So a reply to packet k is timed against the last packet with the same id. */
  lemma SlotHoldsLast(times: seq<nat>, table: seq<nat>, k: nat)
    requires Remembers(times, table) && k < |times|
    ensures k % 0x1_0000 < |table| && table[k % 0x1_0000] == times[LastWithId(k, |times|)]
  {
    var j := LastWithId(k, |times|);
    assert j % 0x1_0000 == k % 0x1_0000;
  }

  /** The reply starts with the id packet k was sent with. */
  predicate Answers(reply: (Byte, Byte), k: nat) {
    [reply.0, reply.1] == Header(k % 0x1_0000)[..2]
  }

  lemma RemembersNext(times: seq<nat>, table: seq<nat>, t: nat)
    requires Remembers(times, table) && |times| % 0x1_0000 < |table|
    ensures Remembers(times + [t], table[|times| % 0x1_0000 := t])
  {
    var n := |times|;
    forall k | 0 <= k < n && n + 1 - k <= 0x1_0000
      ensures k % 0x1_0000 != n % 0x1_0000
    {
    }
  }

  /** A run of n packets stays inside the table iff it has a slot for every id or for
      every packet. */
  lemma SlotsSuffice(n: nat, slots: nat)
    ensures (forall k: nat :: k < n ==> k % 0x1_0000 < slots) <==> 0x1_0000 <= slots || n <= slots
  {
    if slots < 0x1_0000 && slots < n {
      assert slots % 0x1_0000 == slots;
    }
  }

  /** How a run leaves the sending loop: all packets sent; about to stamp an id that has
      no slot, outside datagram_start; or about to convert an infinite wait, after the
      first packet of a run without a rate. In C the last two have no defined meaning. */
  datatype Outcome = Completed | OutsideTable | NoRate

  /** Which, and after how many packets. */
  function Ending(pps: nat, slots: nat, count: nat): (Outcome, nat) {
    if slots == 0 && 0 < count then (OutsideTable, 0)
    else if pps == 0 then (NoRate, 1)
    else if 0x1_0000 <= slots || count <= slots then (Completed, count)
    else (OutsideTable, slots)
  }

  /** It completes iff there is a rate and every packet's id has a slot. Otherwise the packet
      it stops at is the first whose id has none, or the first at all if there is no rate. */
  lemma EndingExact(pps: nat, slots: nat, count: nat)
    requires 0 < count
    ensures var (outcome, n) := Ending(pps, slots, count);
            && n <= count
            && (forall k: nat :: k < n ==> k % 0x1_0000 < slots)
            && (outcome == Completed <==> 0 < pps && forall k: nat :: k < count ==> k % 0x1_0000 < slots)
            && (outcome == Completed ==> n == count)
            && (outcome == OutsideTable ==> n < count && slots <= n % 0x1_0000)
            && (outcome == NoRate <==> pps == 0 && 0 < slots)
            && (outcome == NoRate ==> n == 1)
  {
    SlotsSuffice(count, slots);
    SlotsSuffice(Ending(pps, slots, count).1, slots);
  }

  /** main's packet count when none is asked for: ULONG_MAX. */
  const DEFAULT_COUNT: nat := 0xffff_ffff_ffff_ffff

  /** With the table as the source declares it, a run completes iff it sends at most
      65507 packets; the default run does not. Packet 65507 is the first to fail. */
  lemma SourceTable(pps: nat, count: nat)
    requires 0 < pps && 0 < count
    ensures Ending(pps, MAX_UDP_DATA_SIZE, count).0 == Completed <==> count <= 65507
    ensures Ending(pps, MAX_UDP_DATA_SIZE, DEFAULT_COUNT) == (OutsideTable, 65507)
    ensures !(forall k: nat :: k < 65508 ==> k % 0x1_0000 < MAX_UDP_DATA_SIZE)
  {
    SlotsSuffice(65508, MAX_UDP_DATA_SIZE);
  }

  /** Packet k went out with k packets before it within the rate. */
  ghost predicate WithinRate(pps: nat, startup: nat, times: seq<nat>) {
    forall k :: 0 <= k < |times| ==> startup <= times[k] && 1000 * k < pps * (times[k] - startup + 1)
  }

  /** The same, by when packet k is due. */
  ghost predicate OnTime(pps: nat, startup: nat, times: seq<nat>)
    requires 0 < pps
  {
    forall k :: 0 <= k < |times| ==> startup + Due(pps, k) <= times[k]
  }

  lemma OnTimeExact(pps: nat, startup: nat, times: seq<nat>)
    requires 0 < pps
    ensures OnTime(pps, startup, times) <==> WithinRate(pps, startup, times)
  {
    forall k | 0 <= k < |times| && startup <= times[k]
      ensures startup + Due(pps, k) <= times[k] <==> 1000 * k < pps * (times[k] - startup + 1)
    {
      DueExact(pps, k, times[k] - startup);
    }
  }

  // ---------------------------------------------------------------- Context

  /** Context, with the send history beside it. */
  class Context {
    const world: World
    const rng: Rng
    const question: array<Byte>
    const datagramStart: array<nat>
    const startup: nat
    ghost const stalled0: nat
    const pps: nat
    const timeout: nat
    const fuzz: bool
    var id: nat
    var sent: nat
    var received: nat
    var failed: nat
    var sending: bool
    ghost var times: seq<nat>

    ghost predicate Valid()
      reads this, world
    {
      && question.Length == MAX_UDP_DATA_SIZE
      && question as object != datagramStart as object
      && id == sent % 0x1_0000 && |times| == sent
      && received == |world.inbox|
      && startup <= world.now
    }

    /** init_context, and main's assignments behind it. `slots` is the size of
        datagram_start, 65507 in the source. */
    constructor (world: World, rng: Rng, slots: nat, pps: nat, timeout: nat, fuzz: bool)
      requires world.inbox == []
      modifies world`now
      ensures Valid() && fresh(question) && fresh(datagramStart) && datagramStart.Length == slots
      ensures this.world == world && this.rng == rng && old(world.now) <= world.now && this.startup == world.now
      ensures this.pps == pps && this.timeout == timeout && this.fuzz == fuzz
      ensures sent == 0 && sending && question[..] == Start().question && stalled0 == world.stalled
    {
      this.world, this.rng, this.pps, this.timeout, this.fuzz := world, rng, pps, timeout, fuzz;
      var t := world.Milliseconds();
      this.startup, this.stalled0 := t, world.stalled;
      this.id, this.sent, this.received, this.failed, this.sending := 0, 0, 0, 0, true;
      this.times := [];
      this.question := new Byte[MAX_UDP_DATA_SIZE](_ => 0);
      this.datagramStart := new nat[slots](_ => 0);
      new;
      WriteHeader(this.question);
    }

    /** The header of init_context: RD and one question. */
    static method WriteHeader(question: array<Byte>)
      requires question.Length == MAX_UDP_DATA_SIZE && forall i :: 0 <= i < question.Length ==> question[i] == 0
      modifies question
      ensures question[..] == Start().question
    {
      var at := PutHtons(question, 2, FLAGS_RECURSION_DESIRED);
      ghost var q1 := question[..];
      at := PutHtons(question, at, 1);
      ghost var q2 := question[..];
      forall i | 0 <= i < |q2|
        ensures q2[i] == (if i == 2 || i == 5 then 1 else 0)
      {
        if i < 4 {
          assert q2[i] == q2[..4][i] == q1[..4][i] == q1[i];
          assert if i < 2 then q1[i] == q1[..2][i] else q1[i] == q1[2..4][i - 2];
        } else if i < 6 {
          assert q2[i] == q2[4..6][i - 4];
        } else {
          assert q2[i] == q2[6..][i - 6] == q1[6..][i - 6] == q1[i] == q1[4..][i - 4];
        }
      }
      StartedWith(q2);
    }

    /** The buffer init_context leaves, byte by byte. */
    static lemma StartedWith(q: Bytes)
      requires |q| == MAX_UDP_DATA_SIZE
      requires forall i :: 0 <= i < |q| ==> q[i] == (if i == 2 || i == 5 then 1 else 0)
      ensures q == Start().question
    {
      assert Header(0) == [0, 0, 1, 0, 0, 1, 0, 0, 0, 0, 0, 0];
      assert q[..HEADER_SIZE] == Header(0);
      assert q[HEADER_SIZE..] == seq(MAX_UDP_DATA_SIZE - HEADER_SIZE, _ => 0);
    }

    /** The sendto() loop. */
    method Send(packet: Bytes)
      modifies world`now, world`budget, world`sent
      ensures old(world.now) <= world.now && world.budget <= old(world.budget)
      ensures world.punctual ==> world.now == old(world.now)
      ensures world.sent == old(world.sent) + [packet]
    {
      var ok := world.SendTo(packet);
      while !ok
        invariant old(world.now) <= world.now && world.budget <= old(world.budget)
        invariant world.punctual ==> world.now == old(world.now)
        invariant world.sent == old(world.sent) + (if ok then [packet] else [])
        decreases world.budget, !ok
      {
        ok := world.SendTo(packet);
      }
    }

    /** blast() up to sendto(): the question, the id, the stamp, the fuzzing. */
    method Prepare(name: Bytes, qtype: nat) returns (size: nat, ghost t: nat)
      requires Valid() && Sendable(Draw(name, qtype, rng.cursor)) && id < datagramStart.Length
      modifies `id, question, datagramStart, rng, world`now
      ensures id == (old(id) + 1) % 0x1_0000 && size == PacketSize(name) <= question.Length
      ensures var d := Draw(name, qtype, old(rng.cursor));
              Blasted(rng.src, fuzz, old(question[..]), old(id), d)
              == (Gen(question[..], Draw(name, qtype, rng.cursor)), question[..size])
      ensures world.punctual ==> world.now == old(world.now)
      ensures old(world.now) <= t <= world.now && datagramStart[..] == old(datagramStart[..])[old(id) := t]
    {
      ghost var d := Draw(name, qtype, rng.cursor);
      var slot := id;
      id := (id + 1) % 0x1_0000;
      size := FillQuestion(question, slot, name, qtype);
      assert question[..] == Filled(old(question[..]), slot, d);
      var now := world.Milliseconds();
      t := now;
      datagramStart[slot] := now;
      assert datagramStart[..] == old(datagramStart[..])[slot := t];
      if fuzz {
        Fuzz(question, size, rng);
      }
    }

    /** The send time went into the history and, for the reply, into the id's slot. */
    ghost predicate Stamped(was: seq<nat>, table: seq<nat>, slot: nat, earliest: nat)
      reads this, world, datagramStart
    {
      && |times| == |was| + 1 && times[..|was|] == was && earliest <= times[|was|] <= world.now
      && slot < |table| && datagramStart[..] == table[slot := times[|was|]]
    }

    /** blast() from sendto() on. */
    method Transmit(size: nat, ghost t: nat)
      requires size <= question.Length && |times| == sent
      modifies `sent, `times, world`now, world`budget, world`sent
      ensures old(world.now) <= world.now && world.budget <= old(world.budget)
      ensures world.punctual ==> world.now == old(world.now)
      ensures world.sent == old(world.sent) + [question[..size]]
      ensures sent == old(sent) + 1 && times == old(times) + [t]
    {
      Send(question[..size]);
      times := times + [t];
      sent := sent + 1;
    }

    /** blast(). Stamping an id without a slot would write outside datagram_start: the
        model goes no further then, and nothing is sent. */
    method Blast(name: Bytes, qtype: nat) returns (inside: bool, ghost packet: Bytes)
      requires Valid() && Sendable(Draw(name, qtype, rng.cursor))
      modifies `id, `sent, `times, question, datagramStart, rng, world`now, world`budget, world`sent
      ensures Valid() && old(world.now) <= world.now && world.budget <= old(world.budget)
      ensures world.punctual ==> world.now == old(world.now)
      ensures inside <==> old(id) < datagramStart.Length
      ensures !inside ==> sent == old(sent) && times == old(times) && world.sent == old(world.sent)
      ensures !inside ==> datagramStart[..] == old(datagramStart[..])
      ensures inside ==> sent == old(sent) + 1 && world.sent == old(world.sent) + [packet]
      ensures inside ==>
                Blasted(rng.src, fuzz, old(question[..]), old(id), Draw(name, qtype, old(rng.cursor)))
                == (Gen(question[..], Draw(name, qtype, rng.cursor)), packet)
      ensures inside ==> Stamped(old(times), old(datagramStart[..]), old(id), old(world.now))
    {
      inside, packet := id < datagramStart.Length, [];
      if inside {
        var size, t := Prepare(name, qtype);
        packet := question[..size];
        Transmit(size, t);
      }
    }

    ghost predicate Remembered()
      reads this, datagramStart
    {
      Remembers(times, datagramStart[..])
    }

    /** receive(). A reply that brings back the first two bytes of a packet with fewer
        than 65536 successors is timed against that very packet. An id without a slot
        has no known time. */
    method Receive() returns (got: bool, ghost elapsed: int)
      requires Valid()
      modifies `received, world`now, world`budget, world`inbox, world`dry
      ensures Valid() && old(world.now) <= world.now && (world.punctual ==> world.now == old(world.now))
      ensures world.budget <= old(world.budget) && (got ==> world.budget < old(world.budget))
      ensures if got then |world.inbox| == |old(world.inbox)| + 1 && old(world.inbox) <= world.inbox
              else world.inbox == old(world.inbox)
      ensures world.dry == old(world.dry) + (if got then 0 else 1)
      ensures got && Remembered() ==>
                forall k :: 0 <= k < |times| && |times| - k <= 0x1_0000
                            && Answers(world.inbox[|old(world.inbox)|], k) ==>
                  elapsed == world.now - times[k]
    {
      got, elapsed := false, 0;
      var recvv := world.Recv();
      while recvv == Interrupted
        invariant old(world.now) <= world.now && (world.punctual ==> world.now == old(world.now))
        invariant world.budget <= old(world.budget) && (recvv != Nothing ==> world.budget < old(world.budget))
        invariant world.inbox == old(world.inbox) + (if recvv.Reply? then [(recvv.first, recvv.second)] else [])
        invariant received == |old(world.inbox)|
        invariant world.dry == old(world.dry) + (if recvv == Nothing then 1 else 0)
        decreases world.budget, recvv == Interrupted
      {
        recvv := world.Recv();
      }
      if recvv.Reply? {
        var receivedId := recvv.second as int * 256 + recvv.first as int;
        var now := world.Milliseconds();
        if receivedId < datagramStart.Length {
          elapsed := now as int - datagramStart[receivedId] as int;
        }
        forall k | 0 <= k && Answers((recvv.first, recvv.second), k)
          ensures receivedId == k % 0x1_0000
        {
          SwapRecovers(k % 0x1_0000);
        }
        received := received + 1;
        got := true;
      }
    }

    /** empty_receive_queue(): reads until nothing is left, once. */
    method EmptyReceiveQueue()
      requires Valid()
      modifies `received, world`now, world`budget, world`inbox, world`dry
      ensures Valid() && old(world.now) <= world.now && (world.punctual ==> world.now == old(world.now))
      ensures world.budget <= old(world.budget) && world.dry == old(world.dry) + 1
    {
      var got := true;
      while got
        invariant Valid() && old(world.now) <= world.now && (world.punctual ==> world.now == old(world.now))
        invariant world.budget <= old(world.budget) && world.dry == old(world.dry) + (if got then 0 else 1)
        decreases world.budget, got
      {
        ghost var elapsed;
        got, elapsed := Receive();
      }
    }

    /** throttled_receive() from poll() on. Whenever poll reports a reply, everything there is
        to read is read. Replies neither shorten nor lengthen the wait:
        `remaining == wait - (now - now0)` all along. An interrupted poll starts over with
        all that remained, so it does lengthen the wait, by the time it had taken, unless
        a reply follows and the clock is read again: a wait that runs out is longer by
        exactly `lag`, the interrupted polls since the clock was last read. */
    method Await(now0: nat, wait: nat) returns (idle: bool, ghost timedOut: bool, ghost lag: nat)
      requires Valid() && now0 <= world.now
      modifies `received, `failed, world`now, world`budget, world`stalled, world`woken, world`inbox,
               world`dry
      ensures Valid() && old(world.now) <= world.now && now0 + wait <= world.now
      ensures world.budget < old(world.budget) || (world.budget == old(world.budget) && old(world.now) < world.now)
      ensures idle == (timedOut && !sending) && failed == old(failed) + (if idle then 1 else 0)
      ensures old(world.stalled) + lag <= world.stalled
      ensures old(world.woken) <= world.woken && world.dry - old(world.dry) == world.woken - old(world.woken)
      ensures world.punctual && now0 == old(world.now) ==>
                && world.now <= now0 + wait + (world.stalled - old(world.stalled)) + 1
                && (timedOut ==> now0 + wait + lag <= world.now <= now0 + wait + lag + 1)
    {
      var now, remainingTime: int := now0, wait;
      idle, timedOut, lag := false, false, 0;
      while true
        invariant Valid() && now0 <= now <= world.now && old(world.now) <= world.now
        invariant world.budget <= old(world.budget) && !idle && !timedOut
        invariant 0 <= remainingTime == wait - (now - now0)
        invariant failed == old(failed) && old(world.stalled) + lag <= world.stalled
        invariant old(world.woken) <= world.woken && world.dry - old(world.dry) == world.woken - old(world.woken)
        invariant world.punctual && now0 == old(world.now) ==> world.now == now + lag
        decreases world.budget
      {
        ghost var before := world.now;
        var ret := world.Poll(remainingTime);
        if ret == TimedOut {
          timedOut := true;
          if !sending {
            failed := failed + 1;
            idle := true;
          }
          break;
        }
        if ret == Ready {
          EmptyReceiveQueue();
          var now2 := world.Milliseconds();
          remainingTime := remainingTime - (now2 - now);
          now, lag := now2, 0;
        } else {
          lag := lag + (world.now - before);
        }
        if remainingTime <= 0 {
          break;
        }
      }
    }

    /** throttled_receive(); `idle` is its return value 1. While sending, it returns no
        earlier than the rate allows. In a punctual world it is at most a tick late, and
        as long as it was stalled in interrupted polls; so it is in the drain phase, with
        the timeout in place of the rate. It reads everything there is to read whenever poll
        reports something, and first of all if it is behind its rate. */
    method ThrottledReceive() returns (idle: bool)
      requires Valid() && 0 < sent && 1000 * (sent - 1) < pps * (world.now - startup + 1)
      modifies `received, `failed, world`now, world`budget, world`stalled, world`woken, world`inbox,
               world`dry
      ensures Valid() && old(world.now) <= world.now && old(world.stalled) <= world.stalled
      ensures world.budget < old(world.budget) || (world.budget == old(world.budget) && old(world.now) < world.now)
      ensures sending ==> !idle && 1000 * sent < pps * (world.now - startup + 1)
      ensures failed == old(failed) + (if idle then 1 else 0)
      ensures !sending ==> world.dry - old(world.dry) == world.woken - old(world.woken)
      ensures sending && (world.punctual || Behind(pps, sent, old(world.now) - startup)) ==>
                world.dry - old(world.dry)
                == world.woken - old(world.woken) + (if Behind(pps, sent, old(world.now) - startup) then 1 else 0)
      ensures sending && world.punctual ==>
                && 0 < pps
                && AtMostLate(pps, sent, old(world.now) - startup, world.stalled - old(world.stalled),
                              world.now - startup)
      ensures !sending && world.punctual ==>
                world.now <= old(world.now) + timeout + (world.stalled - old(world.stalled)) + 1
    {
      var now := world.Milliseconds();
      var elapsed := now - startup;
      MoreTime(pps, 1000 * (sent - 1), old(world.now) - startup, elapsed);
      WaitInRange(pps, sent, elapsed);
      var maxPackets := MaxPackets(pps, elapsed);
      MaxPacketsDefines(pps, sent, elapsed);
      if Behind(pps, sent, old(world.now) - startup) {
        BehindLater(pps, sent, old(world.now) - startup, elapsed);
      }
      if sending && sent as real <= maxPackets {
        EmptyReceiveQueue();
      }
      var remainingTime: int := Truncated(WaitTime(pps, sent, elapsed));
      if !sending {
        remainingTime := timeout;
      } else if remainingTime < 0 {
        remainingTime := 0;
      }
      ghost var timedOut, lag;
      idle, timedOut, lag := Await(now, remainingTime);
      if sending {
        WaitPaces(pps, sent, elapsed, world.stalled - old(world.stalled), world.now - startup);
      }
    }

    /** The state as the trace sees it: `name` and `qtype` are main's. */
    ghost predicate Shows(g: Gen, name: Bytes, qtype: nat)
      reads this, question, rng
    {
      g.question == question[..] && g.last == Draw(name, qtype, rng.cursor)
    }

    /** main's choice of the next question. */
    method DrawQuestion(name: Bytes, qtype: nat) returns (name': Bytes, qtype': nat)
      requires qtype < 0x1_0000
      modifies rng
      ensures Draw(name', qtype', rng.cursor) == NextQuestion(rng.src, Draw(name, qtype, old(rng.cursor)))
    {
      name', qtype' := name, qtype;
      var r := rng.Rand();
      if r > rng.src.Share(13854) {
        name', qtype' := GetRandomQuestion(rng);
      }
    }

    /** One turn of main's loop up to throttled_receive: the question, then blast(). */
    method Turn(ghost g: Gen, name: Bytes, qtype: nat) returns (inside: bool, name': Bytes, qtype': nat)
      requires Valid() && GenOk(g) && Shows(g, name, qtype)
      modifies `id, `sent, `times, question, datagramStart, rng, world`now, world`budget, world`sent
      ensures Valid() && old(world.now) <= world.now && world.budget <= old(world.budget)
      ensures world.punctual ==> world.now == old(world.now)
      ensures inside <==> old(id) < datagramStart.Length
      ensures !inside ==> sent == old(sent) && times == old(times) && world.sent == old(world.sent)
      ensures !inside ==> datagramStart[..] == old(datagramStart[..])
      ensures inside ==> var (g', packet) := DnsTrace.Turn(rng.src, fuzz, old(sent), g);
                         Shows(g', name', qtype') && sent == old(sent) + 1 && world.sent == old(world.sent) + [packet]
      ensures inside ==> Stamped(old(times), old(datagramStart[..]), old(id), old(world.now))
    {
      NextSendable(rng.src, g.last);
      name', qtype' := DrawQuestion(name, qtype);
      ghost var packet;
      inside, packet := Blast(name', qtype');
    }

    /** The turn as a step of the trace. */
    method TracedTurn(ghost g: Gen, ghost packets: seq<Bytes>, name: Bytes, qtype: nat)
      returns (inside: bool, name': Bytes, qtype': nat, ghost g': Gen, ghost packet: Bytes)
      requires Valid() && Traced(States(rng.src, fuzz), Packets(rng.src, fuzz), sent, g, packets)
      requires Shows(g, name, qtype)
      modifies `id, `sent, `times, question, datagramStart, rng, world`now, world`budget, world`sent
      ensures Valid() && old(world.now) <= world.now && world.budget <= old(world.budget)
      ensures world.punctual ==> world.now == old(world.now)
      ensures inside <==> old(id) < datagramStart.Length
      ensures !inside ==> sent == old(sent) && times == old(times) && world.sent == old(world.sent)
      ensures !inside ==> datagramStart[..] == old(datagramStart[..])
      ensures inside ==> Traced(States(rng.src, fuzz), Packets(rng.src, fuzz), sent, g', packets + [packet])
      ensures inside ==> Shows(g', name', qtype') && sent == old(sent) + 1 && world.sent == old(world.sent) + [packet]
      ensures inside ==> Stamped(old(times), old(datagramStart[..]), old(id), old(world.now))
    {
      DnsTrace.TracedTurn(rng.src, fuzz, sent, g, packets);
      g', packet := DnsTrace.Turn(rng.src, fuzz, sent, g).0, DnsTrace.Turn(rng.src, fuzz, sent, g).1;
      inside, name', qtype' := Turn(g, name, qtype);
    }

    /** Within the rate so far, if there is one, and datagram_start is the send history. */
    ghost predicate OnSchedule()
      reads this, world, datagramStart
    {
      && startup <= world.now && Remembered()
      && (0 < pps ==> Due(pps, sent) <= world.now - startup && OnTime(pps, startup, times))
    }

    /** In a punctual world the run is no slower than its rate, but for `slack` and the time
        stalled in interrupted polls. */
    ghost predicate InTime(slack: nat)
      reads this, world
    {
      && stalled0 <= world.stalled
      && (world.punctual && 0 < pps ==>
            world.now - startup <= Due(pps, sent) + slack + (world.stalled - stalled0))
    }

    /** What a packet does to the schedule, before the wait that follows it. */
    lemma ScheduleNext(was: seq<nat>, table: seq<nat>, slot: nat, e: nat)
      requires Stamped(was, table, slot, startup + e) && 0 < pps && OnTime(pps, startup, was)
      requires sent == |was| + 1 && Due(pps, |was|) <= e
      ensures OnTime(pps, startup, times)
    {
      assert times == was + [times[|was|]];
    }

    lemma TableNext(was: seq<nat>, table: seq<nat>, slot: nat, earliest: nat)
      requires Stamped(was, table, slot, earliest) && Remembers(was, table) && slot == |was| % 0x1_0000 < |table|
      ensures Remembered()
    {
      RemembersNext(was, table, times[|was|]);
      assert times == was + [times[|was|]];
    }

    /** The wait behind a packet; n, e and stalled are from before it. */
    method Pace(ghost n: nat, ghost e: nat, ghost stalled: nat)
      requires Valid() && sending && 0 < pps && sent == n + 1 && Remembered() && OnTime(pps, startup, times)
      requires startup + Due(pps, n) <= world.now && stalled0 + stalled == world.stalled
      requires world.punctual ==> startup + e == world.now && e <= Due(pps, n) + n + stalled
      modifies `received, `failed, world`now, world`budget, world`stalled, world`woken, world`inbox,
               world`dry
      ensures Valid() && OnSchedule() && InTime(sent) && old(world.now) <= world.now
    {
      DueExact(pps, n, world.now - startup);
      var _ := ThrottledReceive();
      DueExact(pps, sent, world.now - startup);
      DueLater(pps, n, sent);
    }

    /** A turn and the wait behind it. The answer Completed means go on. */
    method Round(ghost g: Gen, ghost packets: seq<Bytes>, name: Bytes, qtype: nat)
      returns (outcome: Outcome, name': Bytes, qtype': nat, ghost g': Gen, ghost packet: Bytes)
      requires Valid() && OnSchedule() && InTime(sent) && sending
      requires Traced(States(rng.src, fuzz), Packets(rng.src, fuzz), sent, g, packets) && Shows(g, name, qtype)
      modifies `id, `sent, `times, `received, `failed, question, datagramStart, rng, world
      ensures Valid() && InTime(sent) && old(world.now) <= world.now
      ensures outcome == if datagramStart.Length <= old(id) then OutsideTable
                         else if pps == 0 then NoRate else Completed
      ensures outcome == OutsideTable ==> OnSchedule() && sent == old(sent) && world.sent == old(world.sent)
      ensures outcome != OutsideTable ==>
                && OnSchedule() && sent == old(sent) + 1 && world.sent == old(world.sent) + [packet]
                && Traced(States(rng.src, fuzz), Packets(rng.src, fuzz), sent, g', packets + [packet])
                && Shows(g', name', qtype')
    {
      ghost var was, table, slot, e := times, datagramStart[..], id, world.now - startup;
      ghost var n, stalled := sent, world.stalled - stalled0;
      var inside;
      inside, name', qtype', g', packet := TracedTurn(g, packets, name, qtype);
      if !inside {
        outcome := OutsideTable;
        return;
      }
      TableNext(was, table, slot, startup + e);
      if pps == 0 {
        return NoRate, name', qtype', g', packet;
      }
      ScheduleNext(was, table, slot, e);
      outcome := Completed;
      Pace(n, e, stalled);
    }

    /** main's sending loop. What is sent is the trace, whatever clock and socket do;
        packet k goes out no earlier than the rate allows; datagram_start holds the
        time of the latest packet with each id. In a punctual world it is not slow either. */
    method SendPhase(sendCount: nat) returns (outcome: Outcome, ghost g: Gen, ghost packets: seq<Bytes>)
      requires Valid() && sending && sent == 0 && question[..] == Start().question && rng.cursor == 0
      requires 0 < sendCount && InTime(sent)
      modifies this, question, datagramStart, rng, world
      ensures Valid() && OnSchedule() && InTime(sent) && old(world.now) <= world.now
      ensures (outcome, sent) == Ending(pps, datagramStart.Length, sendCount)
      ensures Traced(States(rng.src, fuzz), Packets(rng.src, fuzz), sent, g, packets)
      ensures world.sent == old(world.sent) + packets
    {
      var name, qtype := INITIAL_NAME, 0;
      var left := sendCount;
      outcome, g, packets := Completed, Start(), [];
      while left > 0
        invariant Valid() && OnSchedule() && InTime(sent) && old(world.now) <= world.now
        invariant sending && sent == sendCount - left
        invariant outcome == Completed && (pps == 0 ==> sent == 0)
        invariant (0x1_0000 <= datagramStart.Length || sent <= datagramStart.Length)
        invariant Traced(States(rng.src, fuzz), Packets(rng.src, fuzz), sent, g, packets) && Shows(g, name, qtype)
        invariant world.sent == old(world.sent) + packets
      {
        ghost var g', packet;
        outcome, name, qtype, g', packet := Round(g, packets, name, qtype);
        if outcome == OutsideTable {
          return;
        }
        g, packets := g', packets + [packet];
        if outcome == NoRate {
          return;
        }
        left := left - 1;
      }
    }

    /** main's second loop: wait for the replies still missing, but not much longer
        than the timeout. */
    method DrainPhase()
      requires Valid() && 0 < sent && 0 < pps && Due(pps, sent) <= world.now - startup
      modifies `sending, `received, `failed, world`now, world`budget, world`stalled, world`woken, world`inbox,
               world`dry
      ensures Valid() && old(world.now) <= world.now && old(world.stalled) <= world.stalled
      ensures !sending && (sent == received || world.now - old(world.now) > timeout)
      ensures world.punctual ==>
                world.now <= old(world.now) + 2 * timeout + (world.stalled - old(world.stalled)) + 1
    {
      sending := false;
      var now := world.Milliseconds();
      while sent != received
        invariant Valid() && !sending
        invariant old(world.now) <= now <= world.now <= now + timeout
        invariant old(world.stalled) <= world.stalled && (world.punctual ==> now == old(world.now))
        decreases world.budget, now + timeout - world.now
      {
        DueExact(pps, sent, world.now - startup);
        var _ := ThrottledReceive();
        var t := world.Milliseconds();
        if t - now > timeout {
          break;
        }
      }
    }
  }

  /** main: whatever clock and socket do, the packets sent are a function of the random
      numbers, the packet count and the fuzz flag (README.markdown:58-60), up to where
      the table or a missing rate ends the run. */
  method Run(world: World, src: Source, slots: nat, pps: nat, timeout: nat, fuzz: bool, sendCount: nat)
    returns (outcome: Outcome, context: Context)
    requires 0 < sendCount && world.inbox == []
    modifies world
    ensures (outcome, context.sent) == Ending(pps, slots, sendCount)
    ensures world.sent == old(world.sent) + Trace(src, fuzz, context.sent)
    ensures context.received == |world.inbox| && |context.times| == context.sent && context.Remembered()
    ensures 0 < pps ==> WithinRate(pps, context.startup, context.times)
    ensures context.world == world && context.pps == pps && context.stalled0 == old(world.stalled)
    ensures outcome == Completed ==> context.InTime(sendCount + 2 * timeout + 1)
  {
    var rng := new Rng(src);
    context := new Context(world, rng, slots, pps, timeout, fuzz);
    ghost var g, packets;
    outcome, g, packets := context.SendPhase(sendCount);
    TracedIsTrace(src, fuzz, context.sent, g, packets);
    if 0 < pps {
      OnTimeExact(pps, context.startup, context.times);
    }
    if outcome == Completed {
      context.DrainPhase();
    }
  }
}
