/** The sequence of packets as a pure function of the random numbers, the number of
    packets and the fuzz flag (README.markdown:58-60), and what each packet holds. */
module DnsTrace {
  import opened Octets
  import opened DnsName
  import opened DnsSampler
  import opened DnsQuestion

  /** MAX_UDP_DATA_SIZE: the size of Context.question. */
  const MAX_UDP_DATA_SIZE: nat := 0xffff - 20 - 8

  // ---------------------------------------------------------------- random names

  /** charset_alnum. */
  function Alnum(r: nat): Byte {
    var k := r % 36;
    if k < 26 then 97 + k else 48 + (k - 26)
  }

  /** get_random_name: four random characters dot com. */
  function RandomName(src: Source, c: nat): Bytes {
    var r1, r2 := src.at(c), src.at(c + 1);
    [Alnum(r1), Alnum(r1 / 65536), Alnum(r2), Alnum(r2 / 65536)] + [DOT, 99, 111, 109]
  }

  /** "%d" for one address byte. */
  function Decimal(n: nat): Bytes
    requires n < 256
  {
    if n < 10 then [48 + n] else Decimal(n / 10) + [48 + n % 10]
  }

  /** The dotted quad asked for in a PTR question. */
  function RandomQuad(src: Source, c: nat): Bytes {
    Decimal(src.at(c) % 256) + ([DOT] + (Decimal(src.at(c + 1) % 256) + ([DOT]
      + (Decimal(src.at(c + 2) % 256) + ([DOT] + Decimal(src.at(c + 3) % 256))))))
  }

  datatype Draw = Draw(name: Bytes, qtype: nat, cursor: nat)

  /** get_random_question. */
  function RandomQuestion(src: Source, c: nat): (d: Draw)
    ensures d.qtype < 0x1_0000
  {
    var (qtype, c1) := RandomType(src, c);
    if qtype == TYPE_PTR then Draw(RandomQuad(src, c1), qtype, c1 + 4)
    else Draw(RandomName(src, c1), qtype, c1 + 2)
  }

  /** One turn of main's loop: keep the last question, or draw a new one. */
  function NextQuestion(src: Source, last: Draw): (d: Draw)
    requires last.qtype < 0x1_0000
    ensures d.qtype < 0x1_0000
  {
    if src.at(last.cursor) > src.Share(13854) then RandomQuestion(src, last.cursor + 1)
    else last.(cursor := last.cursor + 1)
  }

  /** In a trigger: the quantified fact serves only proofs that name the index. */
  predicate Pick(i: nat) {
    0 <= i
  }

  predicate Plain(l: Bytes) {
    forall i :: 0 <= i < |l| ==> l[i] != DOT && l[i] != 0
  }

  predicate AllPlain(ls: Labels) {
    ls.End? || (Plain(ls.first) && AllPlain(ls.rest))
  }

  /** A dotless stretch of n characters up to the next dot or the end. */
  lemma {:induction false} PlainEnd(whole: Bytes, from: nat, n: nat)
    requires from + n <= |whole| && forall i :: from <= i < from + n ==> whole[i] != DOT
    requires from + n < |whole| ==> whole[from + n] == DOT
    ensures LabelEnd(whole, from) == n
    decreases n
  {
    if n > 0 {
      PlainEnd(whole, from + 1, n - 1);
    }
  }

  lemma SplitFirst(whole: Bytes, from: nat, l: Bytes, rest: Labels)
    requires from + |l| <= |whole| && whole[from..from + |l|] == l && LabelEnd(whole, from) == |l|
    requires rest == if from + |l| == |whole| then End else Split(whole, from + |l| + 1)
    ensures Split(whole, from) == Label(l, rest)
  {
  }

  lemma FirstEnd(whole: Bytes, from: nat, l: Bytes)
    requires from + |l| <= |whole| && whole[from..from + |l|] == l && Plain(l)
    requires from + |l| < |whole| ==> whole[from + |l|] == DOT
    ensures LabelEnd(whole, from) == |l|
  {
    forall i | from <= i < from + |l|
      ensures whole[i] != DOT
    {
      assert whole[i] == l[i - from];
    }
    PlainEnd(whole, from, |l|);
  }

  /** whole[from..] is the labels, with dots between them. */
  predicate Spells(whole: Bytes, from: nat, ls: Labels)
    decreases ls
  {
    ls.Label? &&
    var end := from + |ls.first|;
    end <= |whole| && whole[from..end] == ls.first &&
    if ls.rest.End? then end == |whole|
    else end < |whole| && whole[end] == DOT && Spells(whole, end + 1, ls.rest)
  }

  lemma {:induction false} JoinSpells(pre: Bytes, ls: Labels)
    requires ls.Label?
    ensures Spells(pre + Join(ls), |pre|, ls)
    decreases ls
  {
    if ls.rest.Label? {
      var pre' := pre + ls.first + [DOT];
      JoinSpells(pre', ls.rest);
      assert pre + Join(ls) == pre' + Join(ls.rest);
    }
  }

  lemma SplitSpelledFirst(whole: Bytes, from: nat, ls: Labels)
    requires Spells(whole, from, ls) && Plain(ls.first)
    requires ls.rest.Label? ==> Split(whole, from + |ls.first| + 1) == ls.rest
    ensures Split(whole, from) == Label(ls.first, ls.rest)
  {
    FirstEnd(whole, from, ls.first);
    SplitFirst(whole, from, ls.first, ls.rest);
  }

  lemma {:induction false} SplitSpelled(whole: Bytes, from: nat, ls: Labels)
    requires Spells(whole, from, ls) && AllPlain(ls)
    ensures Split(whole, from) == ls
    decreases ls
  {
    if ls.rest.Label? {
      SplitSpelled(whole, from + |ls.first| + 1, ls.rest);
    }
    SplitSpelledFirst(whole, from, ls);
  }

  /** Joining and splitting loses nothing either. */
  lemma SplitJoin(ls: Labels)
    requires ls.Label? && AllPlain(ls)
    ensures Split(Join(ls), 0) == ls
  {
    JoinSpells([], ls);
    assert [] + Join(ls) == Join(ls);
    SplitSpelled(Join(ls), 0, ls);
  }

  lemma {:induction false} DecimalPlain(n: nat)
    requires n < 256
    ensures Plain(Decimal(n)) && 1 <= |Decimal(n)| <= 3
    ensures (n < 100 ==> |Decimal(n)| <= 2) && (n < 10 ==> |Decimal(n)| == 1)
  {
    if n >= 10 {
      DecimalPlain(n / 10);
    }
  }

  /** A name a resolver can take: every label holds 1 to 63 bytes. */
  predicate Askable(name: Bytes) {
    CString(name) && |name| <= 99 && Split(name, 0).Sized(1, 63)
  }

  lemma JoinAskable(ls: Labels)
    requires ls.Label? && AllPlain(ls) && ls.Sized(1, 63) && CString(Join(ls)) && |Join(ls)| <= 99
    ensures Askable(Join(ls)) && Split(Join(ls), 0) == ls
  {
    SplitJoin(ls);
  }

  lemma RandomNameAskable(src: Source, c: nat)
    ensures Askable(RandomName(src, c)) && |RandomName(src, c)| == 8
    ensures Split(RandomName(src, c), 0) == Label(RandomName(src, c)[..4], Label([99, 111, 109], End))
  {
    var r1, r2 := src.at(c), src.at(c + 1);
    var l: Bytes, com: Bytes := [Alnum(r1), Alnum(r1 / 65536), Alnum(r2), Alnum(r2 / 65536)], [99, 111, 109];
    assert RandomName(src, c) == l + ([DOT] + com);
    JoinAskable(Label(l, Label(com, End)));
  }

  lemma RandomQuadAskable(src: Source, c: nat)
    ensures Askable(RandomQuad(src, c)) && |RandomQuad(src, c)| <= 15
    ensures Split(RandomQuad(src, c), 0)
            == Label(Decimal(src.at(c) % 256), Label(Decimal(src.at(c + 1) % 256),
               Label(Decimal(src.at(c + 2) % 256), Label(Decimal(src.at(c + 3) % 256), End))))
  {
    var a, b := Decimal(src.at(c) % 256), Decimal(src.at(c + 1) % 256);
    var d, e := Decimal(src.at(c + 2) % 256), Decimal(src.at(c + 3) % 256);
    DecimalPlain(src.at(c) % 256);
    DecimalPlain(src.at(c + 1) % 256);
    DecimalPlain(src.at(c + 2) % 256);
    DecimalPlain(src.at(c + 3) % 256);
    var two := Label(d, Label(e, End));
    assert Join(two) == d + ([DOT] + e) && AllPlain(two) && two.Sized(1, 63);
    var three := Label(b, two);
    assert Join(three) == b + ([DOT] + Join(two)) && AllPlain(three) && three.Sized(1, 63);
    JoinAskable(Label(a, three));
  }

  /** main's name before the first question was drawn. */
  const INITIAL_NAME: Bytes := [DOT]

  lemma RandomQuestionAskable(src: Source, c: nat)
    ensures Askable(RandomQuestion(src, c).name)
  {
    var c1 := RandomType(src, c).1;
    RandomNameAskable(src, c1);
    RandomQuadAskable(src, c1);
  }

  /** Every name asked for is askable, except the initial ".", which has two empty
      labels. */
  lemma NextQuestionAskable(src: Source, last: Draw)
    requires last.qtype < 0x1_0000
    ensures var d := NextQuestion(src, last); d.name == last.name || Askable(d.name)
  {
    if src.at(last.cursor) > src.Share(13854) {
      var d := RandomQuestion(src, last.cursor + 1);
      RandomQuestionAskable(src, last.cursor + 1);
      assert NextQuestion(src, last) == d;
    }
  }

  lemma InitialNameLabels()
    ensures Split(INITIAL_NAME, 0) == Label([], Label([], End))
    ensures !Askable(INITIAL_NAME) && CString(INITIAL_NAME)
  {
    var ls := Label([], Label([], End));
    assert Join(ls) == INITIAL_NAME;
    SplitJoin(ls);
  }

  /** The question main holds after n turns of its loop, without fuzzing. */
  function DrawAfter(src: Source, n: nat): (d: Draw)
    ensures d.qtype < 0x1_0000
  {
    if n == 0 then Draw(INITIAL_NAME, 0, 0) else NextQuestion(src, DrawAfter(src, n - 1))
  }

  /** The question asked with packet i (0 for the first). */
  function QuestionAt(src: Source, i: nat): (d: Draw)
    ensures d.qtype < 0x1_0000
  {
    DrawAfter(src, i + 1)
  }

  lemma {:induction false} DrawAfterAskable(src: Source, n: nat)
    ensures var d := DrawAfter(src, n);
            (d.name == INITIAL_NAME || Askable(d.name)) && CString(d.name) && |d.name| <= 99
  {
    InitialNameLabels();
    if n > 0 {
      DrawAfterAskable(src, n - 1);
      NextQuestionAskable(src, DrawAfter(src, n - 1));
    }
  }

  // ---------------------------------------------------------------- the fuzzer

  /** fuzz(), the index drawn before the value: overwrite a random byte of the packet,
      go on with probability p / RAND_MAX and half the p. The number of writes comes
      along. */
  function Fuzzed(src: Source, c: nat, q: Bytes, size: nat, p: nat): (r: (Bytes, nat, nat))
    requires 0 < size <= |q|
    ensures |r.0| == |q|
    decreases p
  {
    var q1 := q[src.at(c) % size := src.at(c + 1) % 255];
    if src.at(c + 2) < p && p / 2 > 0 then
      var (q2, c2, n) := Fuzzed(src, c + 3, q1, size, p / 2);
      (q2, c2, n + 1)
    else (q1, c + 3, 1)
  }

  /** floor(log2 p). */
  function Log2(p: nat): nat {
    if p < 2 then 0 else 1 + Log2(p / 2)
  }

  lemma {:induction false} Log2Defines(p: nat)
    requires 1 <= p
    ensures Pow2(Log2(p)) <= p < Pow2(Log2(p) + 1)
  {
    if 2 <= p {
      Log2Defines(p / 2);
    }
  }

  function Pow2(k: nat): nat {
    if k == 0 then 1 else 2 * Pow2(k - 1)
  }

  /** The fuzzer stops after at most floor(log2 p) + 1 writes, three draws each; it
      stays inside the packet and never writes 0xff. */
  lemma {:induction false} FuzzBounded(src: Source, c: nat, q: Bytes, size: nat, p: nat)
    requires 0 < size <= |q|
    ensures var (q', c', n) := Fuzzed(src, c, q, size, p);
            && 1 <= n <= Log2(p) + 1
            && c' == c + 3 * n
            && q'[size..] == q[size..]
            && forall i :: 0 <= i < |q| && q'[i] != q[i] ==> q'[i] != 255
    decreases p
  {
    if src.at(c + 2) < p && p / 2 > 0 {
      FuzzBounded(src, c + 3, q[src.at(c) % size := src.at(c + 1) % 255], size, p / 2);
    }
  }

  // ---------------------------------------------------------------- packets

  /** 12 + strlen(name) + 2 + 4. */
  function PacketSize(name: Bytes): nat {
    HEADER_SIZE + |name| + 2 + 4
  }

  /** What main hands to blast(): a name from its 100-byte buffer. Every empty label
      adds a byte to the encoder's budget; the initial name has two, others none. */
  predicate Sendable(d: Draw) {
    |d.name| <= 99 && CString(d.name) && Empties(Split(d.name, 0)) <= 2 && d.qtype < 0x1_0000
  }

  lemma {:induction false} NoEmpties(ls: Labels)
    requires ls.Sized(1, 63)
    ensures Empties(ls) == 0
  {
    if ls.Label? {
      NoEmpties(ls.rest);
    }
  }

  lemma AskableSendable(d: Draw)
    requires (d.name == INITIAL_NAME || Askable(d.name)) && d.qtype < 0x1_0000
    ensures Sendable(d)
  {
    InitialNameLabels();
    if Askable(d.name) {
      NoEmpties(Split(d.name, 0));
    }
  }

  /** What blast() leaves in Context.question before any fuzzing: the id, the rest of
      the header as it was, the question, and behind it whatever was there. */
  function Filled(q: Bytes, id: nat, d: Draw): (r: Bytes)
    requires |q| == MAX_UDP_DATA_SIZE && id < 0x1_0000 && Sendable(d)
    ensures |r| == MAX_UDP_DATA_SIZE
  {
    SplitSized(d.name, 0);
    WireLength(d.name, 0);
    [id % 256, id / 256] + q[2..HEADER_SIZE] + Wire(Split(d.name, 0)) + BigEndian(d.qtype) + BigEndian(CLASS_IN)
    + q[PacketSize(d.name)..]
  }

  /** What one packet hands to the next: the buffer, and the current question with
      the position in the random numbers. */
  datatype Gen = Gen(question: Bytes, last: Draw)

  predicate GenOk(g: Gen) {
    |g.question| == MAX_UDP_DATA_SIZE && Sendable(g.last)
  }

  /** init_context and main's initial name and type. */
  function Start(): (g: Gen)
    ensures GenOk(g)
  {
    AskableSendable(Draw(INITIAL_NAME, 0, 0));
    Gen(Header(0) + seq(MAX_UDP_DATA_SIZE - HEADER_SIZE, _ => 0), Draw(INITIAL_NAME, 0, 0))
  }

  lemma NextSendable(src: Source, last: Draw)
    requires Sendable(last)
    ensures Sendable(NextQuestion(src, last))
  {
    NextQuestionAskable(src, last);
    var d := NextQuestion(src, last);
    if d.name != last.name {
      AskableSendable(d);
    }
  }

  /** blast() for question d: the buffer and position it leaves, and the packet. */
  function Blasted(src: Source, fuzz: bool, q: Bytes, id: nat, d: Draw): (r: (Gen, Bytes))
    requires |q| == MAX_UDP_DATA_SIZE && id < 0x1_0000 && Sendable(d)
    ensures GenOk(r.0)
  {
    var filled := Filled(q, id, d);
    var (q', c', _) :=
      if fuzz then Fuzzed(src, d.cursor, filled, PacketSize(d.name), src.Share(500)) else (filled, d.cursor, 0);
    (Gen(q', d.(cursor := c')), q'[..PacketSize(d.name)])
  }

  /** Turn i of main's loop. */
  function Turn(src: Source, fuzz: bool, i: nat, g: Gen): (r: (Gen, Bytes))
    requires GenOk(g)
    ensures GenOk(r.0)
  {
    NextSendable(src, g.last);
    Blasted(src, fuzz, g.question, i % 0x1_0000, NextQuestion(src, g.last))
  }

  /** The state after n packets. Nothing but the random numbers, n and the fuzz flag
      goes into it. */
  function After(src: Source, fuzz: bool, n: nat): (g: Gen)
    ensures GenOk(g)
  {
    if n == 0 then Start() else Turn(src, fuzz, n - 1, After(src, fuzz, n - 1)).0
  }

  function PacketAt(src: Source, fuzz: bool, i: nat): Bytes {
    Turn(src, fuzz, i, After(src, fuzz, i)).1
  }

  /** f(0), ..., f(n - 1). */
  function Collect<T>(f: nat -> T, n: nat): (r: seq<T>)
    ensures |r| == n
  {
    if n == 0 then [] else Collect(f, n - 1) + [f(n - 1)]
  }

  lemma {:induction false} CollectAt<T>(f: nat -> T, n: nat, i: nat)
    requires i < n
    ensures Collect(f, n)[i] == f(i)
  {
    if i < n - 1 {
      CollectAt(f, n - 1, i);
    }
  }

  function Packets(src: Source, fuzz: bool): nat -> Bytes {
    (i: nat) => PacketAt(src, fuzz, i)
  }

  /** The packets of a run of n. A longer run sends the same packets first. */
  function Trace(src: Source, fuzz: bool, n: nat): seq<Bytes> {
    Collect(Packets(src, fuzz), n)
  }

  /** The state and everything put out after n turns. The trigger keeps the turns
      themselves out of proofs that only pass this on. */
  ghost predicate Traced<S, T>(states: nat -> S, outs: nat -> T, n: nat, s: S, log: seq<T>) {
    forall k: nat {:trigger Pick(k)} :: Pick(k) && k == n ==> s == states(k) && log == Collect(outs, k)
  }

  lemma TracedStep<S, T>(states: nat -> S, outs: nat -> T, n: nat, s: S, log: seq<T>)
    requires Traced(states, outs, n, s, log)
    ensures Traced(states, outs, n + 1, states(n + 1), log + [outs(n)])
  {
    assert Pick(n);
  }

  lemma TracedNow<S, T>(states: nat -> S, outs: nat -> T, n: nat, s: S, log: seq<T>)
    requires Traced(states, outs, n, s, log)
    ensures s == states(n) && log == Collect(outs, n)
  {
    assert Pick(n);
  }

  function States(src: Source, fuzz: bool): nat -> Gen {
    (i: nat) => After(src, fuzz, i)
  }

  lemma StatesNext(src: Source, fuzz: bool, n: nat)
    ensures States(src, fuzz)(n + 1) == Turn(src, fuzz, n, After(src, fuzz, n)).0
  {
    assert States(src, fuzz)(n + 1) == After(src, fuzz, n + 1);
  }

  lemma PacketsNext(src: Source, fuzz: bool, n: nat)
    ensures Packets(src, fuzz)(n) == Turn(src, fuzz, n, After(src, fuzz, n)).1
  {
    assert Packets(src, fuzz)(n) == PacketAt(src, fuzz, n);
  }

  lemma TracedTurn(src: Source, fuzz: bool, n: nat, g: Gen, packets: seq<Bytes>)
    requires Traced(States(src, fuzz), Packets(src, fuzz), n, g, packets)
    ensures GenOk(g)
    ensures var (g', packet) := Turn(src, fuzz, n, g);
            Traced(States(src, fuzz), Packets(src, fuzz), n + 1, g', packets + [packet])
  {
    TracedNow(States(src, fuzz), Packets(src, fuzz), n, g, packets);
    StatesNext(src, fuzz, n);
    PacketsNext(src, fuzz, n);
    TracedStep(States(src, fuzz), Packets(src, fuzz), n, g, packets);
  }

  lemma TracedIsTrace(src: Source, fuzz: bool, n: nat, g: Gen, packets: seq<Bytes>)
    requires Traced(States(src, fuzz), Packets(src, fuzz), n, g, packets)
    ensures packets == Trace(src, fuzz, n)
  {
    TracedNow(States(src, fuzz), Packets(src, fuzz), n, g, packets);
  }

  lemma FilledIsPacket(q: Bytes, id: nat, d: Draw)
    requires |q| == MAX_UDP_DATA_SIZE && id < 0x1_0000 && Sendable(d)
    requires q[2..HEADER_SIZE] == Header(0)[2..HEADER_SIZE]
    ensures Split(d.name, 0).Sized(0, UCHAR_MAX)
    ensures Filled(q, id, d)[..PacketSize(d.name)] == Packet(id, Split(d.name, 0), d.qtype)
    ensures Filled(q, id, d)[2..HEADER_SIZE] == Header(0)[2..HEADER_SIZE]
  {
    SplitSized(d.name, 0);
    WireLength(d.name, 0);
    assert Header(id) == [id % 256, id / 256] + Header(0)[2..HEADER_SIZE];
    var p := Packet(id, Split(d.name, 0), d.qtype);
    assert |p| == PacketSize(d.name);
    assert Filled(q, id, d) == p + q[PacketSize(d.name)..];
    assert Filled(q, id, d)[2..HEADER_SIZE] == Header(id)[2..HEADER_SIZE];
  }

  function PlainPacket(id: nat, d: Draw): Bytes
    requires id < 0x1_0000 && Sendable(d)
  {
    SplitSized(d.name, 0);
    Packet(id, Split(d.name, 0), d.qtype)
  }

  ghost predicate HeaderIntact(g: Gen) {
    GenOk(g) && g.question[2..HEADER_SIZE] == Header(0)[2..HEADER_SIZE]
  }

  /** One packet without fuzzing: exactly the packet for its question, nothing left
      over from longer earlier names, and the header survives. */
  lemma PlainTurn(src: Source, i: nat, g: Gen)
    requires HeaderIntact(g)
    ensures var d := NextQuestion(src, g.last);
            var (g', packet) := Turn(src, false, i, g);
            Sendable(d) && HeaderIntact(g') && g'.last == d && packet == PlainPacket(i % 0x1_0000, d)
  {
    var d := NextQuestion(src, g.last);
    NextSendable(src, g.last);
    FilledIsPacket(g.question, i % 0x1_0000, d);
  }

  lemma StartIntact()
    ensures HeaderIntact(Start())
  {
  }

  /** The state without fuzzing, seen only through what matters of it. */
  ghost predicate PlainAt(src: Source, n: nat, g: Gen) {
    forall k: nat {:trigger Pick(k)} :: Pick(k) && k == n ==> HeaderIntact(g) && g.last == DrawAfter(src, k)
  }

  lemma PlainNext(src: Source, n: nat, g: Gen)
    requires PlainAt(src, n, g)
    ensures HeaderIntact(g) && PlainAt(src, n + 1, Turn(src, false, n, g).0)
  {
    assert Pick(n);
    PlainTurn(src, n, g);
  }

  lemma {:induction false} PlainState(src: Source, n: nat)
    ensures PlainAt(src, n, After(src, false, n))
  {
    if n == 0 {
      StartIntact();
    } else {
      PlainState(src, n - 1);
      PlainNext(src, n - 1, After(src, false, n - 1));
    }
  }

  /** No draw up to this one asked for a question: main keeps its initial name. */
  ghost predicate NothingDrawn(src: Source, n: nat) {
    forall j: nat :: j < n ==> src.at(j) <= src.Share(13854)
  }

  /** One turn keeps the initial name iff its draw does not ask for a question. */
  lemma NextInitial(src: Source, last: Draw)
    requires last.qtype < 0x1_0000
    ensures var d := NextQuestion(src, last);
            && (d.name == INITIAL_NAME <==> last.name == INITIAL_NAME && src.at(last.cursor) <= src.Share(13854))
            && (d.name == INITIAL_NAME ==> d.cursor == last.cursor + 1)
  {
    InitialNameLabels();
    RandomQuestionAskable(src, last.cursor + 1);
  }

  ghost predicate InitialAt(src: Source, n: nat, d: Draw) {
    && (d.name == INITIAL_NAME <==> NothingDrawn(src, n))
    && (NothingDrawn(src, n) ==> d.cursor == n)
  }

  lemma InitialStep(src: Source, n: nat, last: Draw)
    requires last.qtype < 0x1_0000 && InitialAt(src, n, last)
    ensures InitialAt(src, n + 1, NextQuestion(src, last))
  {
    NextInitial(src, last);
  }

  /** The name is still "." iff every draw so far said to repeat the last question. */
  lemma {:induction false} StillInitial(src: Source, n: nat)
    ensures InitialAt(src, n, DrawAfter(src, n))
  {
    if n > 0 {
      StillInitial(src, n - 1);
      InitialStep(src, n - 1, DrawAfter(src, n - 1));
    }
  }

  /** The packet is read as question d and nothing else. */
  ghost predicate ReadsAs(packet: Bytes, id: nat, d: Draw)
    requires id < 0x1_0000
  {
    Read(packet) == Some(Asked(id, Split(d.name, 0), d.qtype))
  }

  /** The packet for a question main can ask reads back iff its name is not ".". */
  lemma QuestionReadsBack(d: Draw, id: nat)
    requires id < 0x1_0000 && d.qtype < 0x1_0000 && (d.name == INITIAL_NAME || Askable(d.name))
    ensures Sendable(d) && |PlainPacket(id, d)| == PacketSize(d.name)
    ensures ReadsAs(PlainPacket(id, d), id, d) <==> d.name != INITIAL_NAME
  {
    AskableSendable(d);
    SplitSized(d.name, 0);
    WireLength(d.name, 0);
    InitialNameLabels();
    PacketReadsBack(id, Split(d.name, 0), d.qtype);
  }

  lemma QuestionAtReadsBack(src: Source, i: nat, id: nat)
    requires id < 0x1_0000
    ensures var d := QuestionAt(src, i);
            && Sendable(d) && |PlainPacket(id, d)| == PacketSize(d.name)
            && (ReadsAs(PlainPacket(id, d), id, d) <==> d.name != INITIAL_NAME)
  {
    DrawAfterAskable(src, i + 1);
    QuestionReadsBack(QuestionAt(src, i), id);
  }

  lemma TraceIsPlain(src: Source, n: nat, i: nat)
    requires i < n
    ensures var d := QuestionAt(src, i); Sendable(d) && Trace(src, false, n)[i] == PlainPacket(i % 0x1_0000, d)
  {
    CollectAt(Packets(src, false), n, i);
    PlainState(src, i);
    assert Pick(i);
    PlainTurn(src, i, After(src, false, i));
  }

  /** Question round trip over every unfuzzed run: packet i has 12 + strlen + 2 + 4
      bytes, and reads back as question i with id i modulo 65536 iff one of the first
      i + 1 draws asked for a question. Before that the name is still ".", two empty
      labels. */
  lemma TraceReadsBack(src: Source, n: nat, i: nat)
    requires i < n
    ensures var d := QuestionAt(src, i);
            && |Trace(src, false, n)[i]| == PacketSize(d.name)
            && (ReadsAs(Trace(src, false, n)[i], i % 0x1_0000, d) <==> !NothingDrawn(src, i + 1))
  {
    TraceIsPlain(src, n, i);
    QuestionAtReadsBack(src, i, i % 0x1_0000);
    StillInitial(src, i + 1);
  }

  /** The failing family is not empty: with draws that are all 0, whatever RAND_MAX is,
      no packet of the run is read as its question. */
  lemma ZeroDrawsFail(max: nat, n: nat, i: nat)
    requires i < n
    ensures var src := Source(max, _ => 0);
            QuestionAt(src, i).name == INITIAL_NAME
            && !ReadsAs(Trace(src, false, n)[i], i % 0x1_0000, QuestionAt(src, i))
  {
    var src := Source(max, _ => 0);
    assert NothingDrawn(src, i + 1);
    StillInitial(src, i + 1);
    TraceReadsBack(src, n, i);
  }
}
