/** What one relayed connection guarantees over every run, that is over every
    order of callbacks and every result of the kernel, the resolver and the cipher. */
module RelayTheorems {
  import opened Octets
  import opened RelayHeader
  import opened RelayMachine
  import opened RelayInvariant

  /** `c` is where some legal run of a freshly accepted connection ends. */
  ghost predicate Reached(cfg: Config, e0: CipherCtx, d0: CipherCtx, es: seq<Event>, c: Conn) {
    && 2 <= cfg.cap
    && Legal(cfg, Accepted(cfg, e0, d0), es)
    && c == Run(cfg, Accepted(cfg, e0, d0), es)
  }

  lemma ReachedInv(cfg: Config, e0: CipherCtx, d0: CipherCtx, es: seq<Event>, c: Conn)
    requires Reached(cfg, e0, d0, es, c)
    ensures Inv(cfg, e0, d0, c)
  {
    AcceptedInv(cfg, e0, d0);
    RunKeepsInv(cfg, e0, d0, Accepted(cfg, e0, d0), es);
  }

  lemma {:induction false} RunConcat(cfg: Config, c: Conn, es: seq<Event>, fs: seq<Event>)
    requires Legal(cfg, c, es) && Legal(cfg, Run(cfg, c, es), fs)
    ensures Legal(cfg, c, es + fs) && Run(cfg, c, es + fs) == Run(cfg, Run(cfg, c, es), fs)
    decreases |es|
  {
    if es == [] {
      assert es + fs == fs;
    } else {
      assert (es + fs)[1..] == es[1..] + fs;
      RunConcat(cfg, Step(cfg, c, es[0]), es[1..], fs);
    }
  }

  lemma RunCons(cfg: Config, c: Conn, e: Event, es: seq<Event>)
    requires Enabled(cfg, c, e) && Legal(cfg, Step(cfg, c, e), es)
    ensures Legal(cfg, c, [e] + es) && Run(cfg, c, [e] + es) == Run(cfg, Step(cfg, c, e), es)
  {
    assert ([e] + es)[1..] == es;
  }

  lemma RunOne(cfg: Config, c: Conn, e: Event)
    requires Enabled(cfg, c, e)
    ensures Legal(cfg, c, [e]) && Run(cfg, c, [e]) == Step(cfg, c, e)
  {
    var rest := [e][1..];
    assert rest == [];
    assert Legal(cfg, Step(cfg, c, e), rest);
  }

  // ---------------------------------------------------------------- conservation

  /** Upstream: while the client side is alive, the bytes the remote's socket took
      and then the pending ones are the client's decrypted stream without its
      header; after a close the socket has taken a prefix of it. Nothing is sent
      before a header was accepted. */
  lemma UpstreamConserved(cfg: Config, e0: CipherCtx, d0: CipherCtx, es: seq<Event>, c: Conn)
    requires Reached(cfg, e0, d0, es, c)
    ensures var plain := Ciphered(cfg.dec, d0, c.io.fromClient).1;
            match c.note.header
            case Some(Parsed(a, port, off)) =>
              && IsHeader(cfg.mask, plain, a, port, off)
              && (if c.server.Some? then c.io.toRemote + PendingUp(c) == plain[off..]
                  else c.io.toRemote <= plain[off..])
            case Some(Reject) => false
            case None => c.io.toRemote == [] && c.remote.None?
  {
    ReachedInv(cfg, e0, d0, es, c);
  }

  /** A header read off a prefix of a printed header and its payload is that header. */
  lemma HeaderUnambiguous(mask: bv8, d: Bytes, a: Address, port: nat, data: Bytes, a': Address, port': nat, off: nat)
    requires a.Valid() && port < 0x1_0000 && Masked(a.Code(), mask) == a.Code()
    requires d <= Print(a, port) + data && IsHeader(mask, d, a', port', off)
    ensures a' == a && port' == port && off == |Print(a, port)|
  {
    var h := Print(a, port);
    var full := h + data;
    assert full == h + data + [] && full[..|full|] == full;
    ParseInvertsPrint(mask, a, port, data, []);
    assert full[1..off] == d[1..off];
    ParseComplete(mask, full, |full|, a', port', off);
  }

  // ---------------------------------------------------------------- accepting a header

  /** The first chunk that decrypts decides: in every run a header is accepted with it iff
      the header lies wholly inside it, and its name is neither blocked nor malformed. */
  lemma HeaderAccepted(cfg: Config, e0: CipherCtx, d0: CipherCtx, es: seq<Event>, c: Conn, e: Event,
                       out: Bytes, a: Address, port: nat, off: nat)
    requires Reached(cfg, e0, d0, es, c) && Enabled(cfg, c, e) && e.ServerRecv? && e.recv.Data?
    requires c.server.value.stage == Init
    requires cfg.dec(c.server.value.dCtx, e.recv.bytes).result == CryptoOk(out)
    ensures Step(cfg, c, e).note.header == Some(Parsed(a, port, off))
            <==> IsHeader(cfg.mask, out, a, port, off)
                 && !(a.Domain? && (e.verdict.Blocked? || e.verdict.BadName?))
  {
    ReachedInv(cfg, e0, d0, es, c);
    FirstChunkHeader(cfg, c, e.recv.bytes, e.verdict, e.dial, e.fastOpen, out);
    var b := IntoServer(cfg, c, e.recv.bytes).0.server.value.buf;
    assert b.data[..b.len] == out;
    ParseExact(cfg.mask, b.data, b.len, a, port, off);
  }

  /** What the handshake records of the parser's answer. */
  lemma FirstChunkHeader(cfg: Config, c: Conn, bytes: Bytes, verdict: HostVerdict, dial: Dial, fastOpen: bool,
                         out: Bytes)
    requires c.server.Some? && 2 <= |c.server.value.buf.data| && c.server.value.stage == Init
    requires c.note.header.None? && cfg.dec(c.server.value.dCtx, bytes).result == CryptoOk(out)
    ensures var b := IntoServer(cfg, c, bytes).0.server.value.buf;
            var p := Parse(cfg.mask, b.data, b.len);
            var d := FirstData(cfg, c, bytes, verdict, dial, fastOpen);
            && b.len == |out| <= |b.data| && b.data[..b.len] == out && 2 <= |b.data|
            && d.note.header == (if p.Reject? || (p.address.Domain? && (verdict.Blocked? || verdict.BadName?)) then None
                                 else Some(p))
            && (p.Reject? ==> d.note.stopped && d.server.Some? && d.server.value.stage == Stop)
  {
    var c2 := IntoServer(cfg, c, bytes).0;
    var b := c2.server.value.buf;
    HandshakeHeader(cfg, c2, Parse(cfg.mask, b.data, b.len), verdict, dial, fastOpen);
  }

  lemma HandshakeHeader(cfg: Config, c: Conn, p: ParseResult, verdict: HostVerdict, dial: Dial, fastOpen: bool)
    requires c.server.Some? && (p.Parsed? ==> p.offset <= c.server.value.buf.len)
    ensures var d := Handshake(cfg, c, p, verdict, dial, fastOpen);
            && d.note.header == (if p.Reject? || (p.address.Domain? && (verdict.Blocked? || verdict.BadName?))
                                 then c.note.header else Some(p))
            && (p.Reject? ==> d.note.stopped && d.server.Some? && d.server.value.stage == Stop)
  {
  }

  /** A header that the first decrypted chunk does not hold completely is lost: whatever
      the client sends later, the relay stays stopped, and never connects or sends. */
  lemma SplitHeaderLost(cfg: Config, e0: CipherCtx, d0: CipherCtx, es: seq<Event>, c: Conn, e: Event,
                        out: Bytes, fs: seq<Event>)
    requires Reached(cfg, e0, d0, es, c) && Enabled(cfg, c, e) && e.ServerRecv? && e.recv.Data?
    requires c.server.value.stage == Init
    requires cfg.dec(c.server.value.dCtx, e.recv.bytes).result == CryptoOk(out)
    requires forall a, port, off :: !IsHeader(cfg.mask, out, a, port, off)
    requires Legal(cfg, Step(cfg, c, e), fs)
    ensures var c' := Run(cfg, Step(cfg, c, e), fs);
            && c'.note.header.None? && c'.io.toRemote == [] && c'.io.dialled == []
            && (c'.server.Some? ==> c'.server.value.stage == Stop)
  {
    ReachedInv(cfg, e0, d0, es, c);
    FirstChunkHeader(cfg, c, e.recv.bytes, e.verdict, e.dial, e.fastOpen, out);
    var b := IntoServer(cfg, c, e.recv.bytes).0.server.value.buf;
    if Parse(cfg.mask, b.data, b.len).Parsed? {
      ParseSound(cfg.mask, b.data, b.len);
    }
    RunOne(cfg, c, e);
    RunConcat(cfg, Accepted(cfg, e0, d0), es, [e]);
    AfterStop(cfg, e0, d0, es + [e], Step(cfg, c, e), fs);
  }

  lemma AfterStop(cfg: Config, e0: CipherCtx, d0: CipherCtx, es: seq<Event>, c: Conn, fs: seq<Event>)
    requires Reached(cfg, e0, d0, es, c) && Legal(cfg, c, fs)
    requires c.note.stopped && c.note.header.None? && c.server.Some? && c.server.value.stage == Stop
    ensures var c' := Run(cfg, c, fs);
            && c'.note.header.None? && c'.io.toRemote == [] && c'.io.dialled == []
            && (c'.server.Some? ==> c'.server.value.stage == Stop)
  {
    ReachedInv(cfg, e0, d0, es, c);
    StagesAdvance(cfg, e0, d0, c, fs);
    DialsHeader(cfg, e0, d0, es, c);
    RunTargets(cfg, e0, d0, c, fs);
  }

  // ---------------------------------------------------------------- where it goes

  /** Only the accepted header is ever dialled or resolved, and at most once. */
  predicate Targets(c: Conn) {
    && (c.remote.Some? || c.io.toRemote != [] ==> c.io.dialled != [])
    && (c.query.Some? && !c.query.value.answered ==> c.io.dialled == [])
    && (match c.note.header
        case Some(Parsed(a, port, _)) =>
          && (c.io.dialled == [] || c.io.dialled == [Target(a, port)])
          && (c.query.Some? ==> c.query.value.target == Target(a, port))
        case _ => c.io.dialled == [] && c.query.None?)
  }

  /** A step that dials nothing and asks for no name. */
  predicate TargetsKept(c: Conn, c': Conn) {
    && c'.io.dialled == c.io.dialled && c'.note.header == c.note.header
    && (c'.query.Some? ==> c.query.Some? && c'.query.value.target == c.query.value.target
                           && (c.query.value.answered ==> c'.query.value.answered))
    && (c'.remote.Some? || c'.io.toRemote != c.io.toRemote ==> c.remote.Some?)
  }

  lemma KeepTargets(c: Conn, c': Conn)
    requires Targets(c) && TargetsKept(c, c')
    ensures Targets(c')
  {
  }

  lemma DialledTargets(cfg: Config, c: Conn, target: Target, dial: Dial, fastOpen: bool)
    requires c.server.Some? && c.io.dialled == [] && c.io.toRemote == []
    requires c.note.header.Some? && c.note.header.value.Parsed?
    requires target == Target(c.note.header.value.address, c.note.header.value.port)
    requires c.query.Some? ==> c.query.value.answered && c.query.value.target == target
    requires c.remote.None?
    ensures Targets(Dialled(cfg, c, target, dial, fastOpen))
  {
    assert [] + [target] == [target];
  }

  lemma HandshakeTargets(cfg: Config, c: Conn, p: ParseResult, verdict: HostVerdict, dial: Dial, fastOpen: bool)
    requires c.server.Some? && (p.Parsed? ==> p.offset <= c.server.value.buf.len)
    requires Targets(c) && c.note.header.None? && c.remote.None?
    ensures Targets(Handshake(cfg, c, p, verdict, dial, fastOpen))
  {
    if p.Parsed? && !(p.address.Domain? && (verdict.Blocked? || verdict.BadName? || verdict.NeedsQuery?)) {
      DialledTargets(cfg, HeaderOff(c, p), Target(p.address, p.port), dial, fastOpen);
    }
  }

  lemma FirstDataTargets(cfg: Config, c: Conn, bytes: Bytes, verdict: HostVerdict, dial: Dial, fastOpen: bool)
    requires Targets(c) && c.note.header.None? && c.server.Some? && c.remote.None? && 2 <= |c.server.value.buf.data|
    requires c.server.value.stage == Init
    ensures Targets(FirstData(cfg, c, bytes, verdict, dial, fastOpen))
  {
    var (c1, b, result) := Decrypted(cfg, c, bytes, c.server.value.buf);
    if result.CryptoOk? {
      var c2 := c1.(server := Some(c1.server.value.(buf := b)));
      KeepTargets(c, c2);
      HandshakeTargets(cfg, c2, Parse(cfg.mask, b.data, b.len), verdict, dial, fastOpen);
    }
  }

  lemma StreamDataTargets(cfg: Config, c: Conn, bytes: Bytes, send: Send)
    requires c.server.Some? && c.remote.Some?
    ensures TargetsKept(c, StreamData(cfg, c, bytes, send))
  {
  }

  lemma RemoteDataTargets(cfg: Config, c: Conn, bytes: Bytes, send: Send)
    requires c.server.Some? && c.remote.Some?
    ensures TargetsKept(c, RemoteData(cfg, c, bytes, send))
  {
  }

  lemma OthersKeepTargets(cfg: Config, c: Conn, e: Event)
    requires Enabled(cfg, c, e) && !e.Resolved?
    requires !(e.ServerRecv? && e.recv.Data? && (c.server.value.stage == Init || c.server.value.stage == Resolve))
    ensures TargetsKept(c, Step(cfg, c, e))
  {
    match e {
      case ServerRecv(recv, _, _, send, _) =>
        if recv.Data? && c.server.value.stage == Stream && c.remote.Some? {
          StreamDataTargets(cfg, c, recv.bytes, send);
        }
      case RemoteRecv(recv, send) =>
        if recv.Data? && c.server.Some? && c.server.value.stage != Stop {
          RemoteDataTargets(cfg, c, recv.bytes, send);
        }
      case _ =>
    }
  }

  lemma ResolvedTargets(cfg: Config, c: Conn, e: Event)
    requires Watchers(c) && Targets(c) && Enabled(cfg, c, e) && e.Resolved?
    ensures Targets(Step(cfg, c, e))
  {
    var q := c.query.value;
    var c1 := c.(query := Some(q.(answered := true)));
    if c.server.Some? && e.found {
      DialledTargets(cfg, c1, q.target, e.dial, e.fastOpen);
    } else {
      KeepTargets(c, Step(cfg, c, e));
    }
  }

  lemma StepTargets(cfg: Config, c: Conn, e: Event)
    requires Watchers(c) && Upstream(c) && Targets(c) && Enabled(cfg, c, e)
    ensures Targets(Step(cfg, c, e))
  {
    if e.Resolved? {
      ResolvedTargets(cfg, c, e);
    } else if e.ServerRecv? && e.recv.Data? && c.server.value.stage == Init {
      FirstDataTargets(cfg, c, e.recv.bytes, e.verdict, e.dial, e.fastOpen);
    } else {
      OthersKeepTargets(cfg, c, e);
      KeepTargets(c, Step(cfg, c, e));
    }
  }

  lemma {:induction false} RunTargets(cfg: Config, e0: CipherCtx, d0: CipherCtx, c: Conn, es: seq<Event>)
    requires Inv(cfg, e0, d0, c) && Targets(c) && Legal(cfg, c, es)
    ensures Targets(Run(cfg, c, es))
    decreases |es|
  {
    if es != [] {
      StepTargets(cfg, c, es[0]);
      StepKeepsInv(cfg, e0, d0, c, es[0]);
      RunTargets(cfg, e0, d0, Step(cfg, c, es[0]), es[1..]);
    }
  }

  /** In every run the relay connects at most once, to the address and port of the
      accepted header, or to what the resolver makes of its name. */
  lemma DialsHeader(cfg: Config, e0: CipherCtx, d0: CipherCtx, es: seq<Event>, c: Conn)
    requires Reached(cfg, e0, d0, es, c)
    ensures Targets(c)
  {
    AcceptedInv(cfg, e0, d0);
    RunTargets(cfg, e0, d0, Accepted(cfg, e0, d0), es);
  }

  /** End to end: if the client's stream decrypts to (part of) a printed header
      followed by `data`, the relay connects to that address and port and nowhere else,
      and what it sends there is always a prefix of `data`. */
  lemma UpstreamDelivers(cfg: Config, e0: CipherCtx, d0: CipherCtx, es: seq<Event>, c: Conn,
                         a: Address, port: nat, data: Bytes)
    requires Reached(cfg, e0, d0, es, c)
    requires a.Valid() && port < 0x1_0000 && Masked(a.Code(), cfg.mask) == a.Code()
    requires Ciphered(cfg.dec, d0, c.io.fromClient).1 <= Print(a, port) + data
    ensures c.io.dialled == [] || c.io.dialled == [Target(a, port)]
    ensures c.remote.Some? || c.io.toRemote != [] ==> c.io.dialled == [Target(a, port)]
    ensures c.query.Some? ==> c.query.value.target == Target(a, port)
    ensures c.io.toRemote <= data
    ensures c.server.Some? ==> c.io.toRemote + PendingUp(c) <= data
  {
    ReachedInv(cfg, e0, d0, es, c);
    DialsHeader(cfg, e0, d0, es, c);
    if c.note.header.Some? {
      var p := c.note.header.value;
      HeaderUnambiguous(cfg.mask, c.note.plain, a, port, data, p.address, p.port, p.offset);
      assert c.note.plain[p.offset..] <= data;
    } else {
      assert c.io.toRemote == [] && PendingUp(c) == [];
    }
  }

  /** Downstream, until stop_server runs: what the client's socket took and then
      the pending bytes are the encryption of everything read from the remote;
      after a close the socket has taken a prefix of it. */
  lemma DownstreamConserved(cfg: Config, e0: CipherCtx, d0: CipherCtx, es: seq<Event>, c: Conn)
    requires Reached(cfg, e0, d0, es, c) && !c.note.stopped
    ensures var sealed := Ciphered(cfg.enc, e0, c.io.fromRemote).1;
            if c.server.Some? then c.io.toClient + PendingDown(c) == sealed else c.io.toClient <= sealed
  {
    ReachedInv(cfg, e0, d0, es, c);
  }

  /** When the client closes a streaming connection, every byte it had sent that
      decrypted has been handed to the remote. */
  lemma ClientEofLosesNothing(cfg: Config, e0: CipherCtx, d0: CipherCtx, es: seq<Event>, c: Conn, e: Event)
    requires Reached(cfg, e0, d0, es, c) && Enabled(cfg, c, e)
    requires e.ServerRecv? && e.recv.Closed? && c.server.value.stage == Stream
    ensures var c' := Step(cfg, c, e);
            c'.server.None? && c'.io.toRemote == Payload(c') == Payload(c)
  {
    ReachedInv(cfg, e0, d0, es, c);
    assert c.io.toRemote + [] == c.io.toRemote;
  }

  /** When the remote closes, everything it had sent has been encrypted and handed
      to the client. */
  lemma RemoteEofLosesNothing(cfg: Config, e0: CipherCtx, d0: CipherCtx, es: seq<Event>, c: Conn, e: Event)
    requires Reached(cfg, e0, d0, es, c) && Enabled(cfg, c, e)
    requires e.RemoteRecv? && e.recv.Closed? && !c.note.stopped
    ensures var c' := Step(cfg, c, e);
            c'.server.None? && c'.remote.None? && c'.io.toClient == Ciphered(cfg.enc, e0, c'.io.fromRemote).1
  {
    ReachedInv(cfg, e0, d0, es, c);
    assert c.io.toClient + [] == c.io.toClient;
  }

  // ---------------------------------------------------------------- control

  /** The watcher discipline at every callback boundary. */
  lemma WatcherDiscipline(cfg: Config, e0: CipherCtx, d0: CipherCtx, es: seq<Event>, c: Conn)
    requires Reached(cfg, e0, d0, es, c) && c.server.Some?
    ensures var s := c.server.value;
            && s.timer
            && (s.stage == Stream ==>
                  && c.remote.Some? && c.remote.value.connected
                  && s.recvIo != c.remote.value.sendIo
                  && s.sendIo != c.remote.value.recvIo)
            && ((s.stage == Init || s.stage == Resolve) && c.remote.Some? ==>
                  c.remote.value.sendIo && !c.remote.value.recvIo && !s.recvIo && !s.sendIo)
            && (s.stage == Init && c.remote.None? ==> s.recvIo && !s.sendIo && c.query.None?)
            && (s.stage == Resolve && c.remote.None? ==>
                  !s.recvIo && !s.sendIo && c.query.Some? && !c.query.value.answered)
            && (s.stage == Stop ==> s.recvIo && (c.remote.Some? ==> !c.remote.value.sendIo))
  {
    ReachedInv(cfg, e0, d0, es, c);
  }

  /** No connection is left with nothing that could wake it up. */
  lemma NeverStranded(cfg: Config, e0: CipherCtx, d0: CipherCtx, es: seq<Event>, c: Conn)
    requires Reached(cfg, e0, d0, es, c) && c.server.Some?
    ensures || c.server.value.recvIo || c.server.value.sendIo
            || (c.remote.Some? && (c.remote.value.recvIo || c.remote.value.sendIo))
            || (c.query.Some? && !c.query.value.answered)
  {
    ReachedInv(cfg, e0, d0, es, c);
  }

  /** FATAL, the null-remote dereference and both "invalid server" branches are
      never taken; the closes on an empty buffer only after the kernel refused a
      send of zero bytes. */
  lemma FaultsUnreachable(cfg: Config, e0: CipherCtx, d0: CipherCtx, es: seq<Event>, c: Conn)
    requires Reached(cfg, e0, d0, es, c)
    ensures FatalContext !in c.note.faults && NullRemote !in c.note.faults && InvalidServer !in c.note.faults
    ensures EmptySend in c.note.faults ==> c.note.zeroBlocked
  {
    ReachedInv(cfg, e0, d0, es, c);
  }

  /** What a later state may not undo: the stage, STOP, and after STOP the bytes
      sent to the remote. */
  predicate Advances(c: Conn, c': Conn) {
    && (c'.server.Some? ==> c.server.Some? && Rank(c.server.value.stage) <= Rank(c'.server.value.stage))
    && (c.note.stopped ==> c'.note.stopped && c'.io.toRemote == c.io.toRemote && c'.note.header == c.note.header)
  }

  lemma ServerRecvAdvances(cfg: Config, c: Conn, recv: Recv, verdict: HostVerdict, dial: Dial, send: Send,
                           fastOpen: bool)
    requires Watchers(c) && c.server.Some? && c.server.value.recvIo
    ensures Advances(c, OnServerRecv(cfg, c, recv, verdict, dial, send, fastOpen))
  {
    if recv.Data? && c.server.value.stage == Init {
      FirstDataAdvances(cfg, c, recv.bytes, verdict, dial, fastOpen);
    }
  }

  lemma FirstDataAdvances(cfg: Config, c: Conn, bytes: Bytes, verdict: HostVerdict, dial: Dial, fastOpen: bool)
    requires c.server.Some? && 2 <= |c.server.value.buf.data| && c.server.value.stage == Init && !c.note.stopped
    ensures Advances(c, FirstData(cfg, c, bytes, verdict, dial, fastOpen))
  {
  }

  lemma StepAdvances(cfg: Config, c: Conn, e: Event)
    requires Watchers(c) && Enabled(cfg, c, e)
    ensures Advances(c, Step(cfg, c, e))
  {
    if e.ServerRecv? {
      ServerRecvAdvances(cfg, c, e.recv, e.verdict, e.dial, e.send, e.fastOpen);
    }
  }

  /** Stages only advance, and STOP is final: whatever happens later, a stopped
      connection is never relayed upstream again. */
  lemma {:induction false} StagesAdvance(cfg: Config, e0: CipherCtx, d0: CipherCtx, c: Conn, es: seq<Event>)
    requires Inv(cfg, e0, d0, c) && Legal(cfg, c, es)
    ensures Advances(c, Run(cfg, c, es))
    decreases |es|
  {
    if es != [] {
      StepAdvances(cfg, c, es[0]);
      StepKeepsInv(cfg, e0, d0, c, es[0]);
      StagesAdvance(cfg, e0, d0, Step(cfg, c, es[0]), es[1..]);
    }
  }

  lemma StopIsFinal(cfg: Config, e0: CipherCtx, d0: CipherCtx, es: seq<Event>, c: Conn, fs: seq<Event>)
    requires Reached(cfg, e0, d0, es, c) && Legal(cfg, c, fs)
    requires c.server.Some? && c.server.value.stage == Stop
    ensures var c' := Run(cfg, c, fs);
            && (c'.server.Some? ==> c'.server.value.stage == Stop)
            && c'.io.toRemote == c.io.toRemote
  {
    ReachedInv(cfg, e0, d0, es, c);
    StagesAdvance(cfg, e0, d0, c, fs);
  }

  // ---------------------------------------------------------------- the first response

  /** recv_ctx->connected and TCP_NODELAY follow the chunks read from the remote. */
  predicate Responses(cfg: Config, c: Conn) {
    c.server.Some? ==>
      if c.remote.Some? then
        && c.remote.value.replied == (c.io.fromRemote != [])
        && c.remote.value.prompt == (cfg.noDelay || !c.remote.value.replied)
      else c.server.value.stage == Init || c.server.value.stage == Resolve ==> c.io.fromRemote == []
  }

  lemma RemoteDataResponds(cfg: Config, c: Conn, bytes: Bytes, send: Send)
    requires Responses(cfg, c) && c.server.Some? && c.remote.Some?
    ensures Responses(cfg, RemoteData(cfg, c, bytes, send))
  {
  }

  lemma DialledResponds(cfg: Config, c: Conn, target: Target, dial: Dial, fastOpen: bool)
    requires c.server.Some? && c.remote.None? && c.io.fromRemote == []
    ensures Responses(cfg, Dialled(cfg, c, target, dial, fastOpen))
  {
  }

  lemma HandshakeResponds(cfg: Config, c: Conn, p: ParseResult, verdict: HostVerdict, dial: Dial, fastOpen: bool)
    requires c.server.Some? && (p.Parsed? ==> p.offset <= c.server.value.buf.len)
    requires c.remote.None? && c.io.fromRemote == []
    ensures Responses(cfg, Handshake(cfg, c, p, verdict, dial, fastOpen))
  {
    if p.Parsed? && !(p.address.Domain? && (verdict.Blocked? || verdict.BadName? || verdict.NeedsQuery?)) {
      DialledResponds(cfg, HeaderOff(c, p), Target(p.address, p.port), dial, fastOpen);
    }
  }

  lemma FirstDataResponds(cfg: Config, c: Conn, bytes: Bytes, verdict: HostVerdict, dial: Dial, fastOpen: bool)
    requires Responses(cfg, c) && c.server.Some? && c.server.value.stage == Init && c.remote.None?
    requires 2 <= |c.server.value.buf.data|
    ensures Responses(cfg, FirstData(cfg, c, bytes, verdict, dial, fastOpen))
  {
    var (c1, b, result) := Decrypted(cfg, c, bytes, c.server.value.buf);
    if result.CryptoOk? {
      var c2 := c1.(server := Some(c1.server.value.(buf := b)));
      HandshakeResponds(cfg, c2, Parse(cfg.mask, b.data, b.len), verdict, dial, fastOpen);
    }
  }

  lemma RemoteSendResponds(cfg: Config, c: Conn, peerOk: bool, send: Send)
    requires Responses(cfg, c) && c.remote.Some?
    ensures Responses(cfg, OnRemoteSend(c, peerOk, send))
  {
  }

  lemma StreamDataResponds(cfg: Config, c: Conn, bytes: Bytes, send: Send)
    requires Responses(cfg, c) && c.server.Some? && c.remote.Some?
    ensures Responses(cfg, StreamData(cfg, c, bytes, send))
  {
  }

  lemma StepResponds(cfg: Config, c: Conn, e: Event)
    requires Watchers(c) && Responses(cfg, c) && Enabled(cfg, c, e)
    ensures Responses(cfg, Step(cfg, c, e))
  {
    match e {
      case ServerRecv(recv, verdict, dial, send, fastOpen) =>
        if recv.Data? && c.server.value.stage == Init {
          FirstDataResponds(cfg, c, recv.bytes, verdict, dial, fastOpen);
        } else if recv.Data? && c.server.value.stage == Stream {
          StreamDataResponds(cfg, c, recv.bytes, send);
        }
      case RemoteRecv(recv, send) =>
        if recv.Data? && c.server.Some? && c.server.value.stage != Stop {
          RemoteDataResponds(cfg, c, recv.bytes, send);
        }
      case RemoteSend(peerOk, send) => RemoteSendResponds(cfg, c, peerOk, send);
      case Resolved(found, dial, fastOpen) =>
        var q := c.query.value;
        if c.server.Some? && found {
          DialledResponds(cfg, c.(query := Some(q.(answered := true))), q.target, dial, fastOpen);
        }
      case _ =>
    }
  }

  lemma {:induction false} RunResponds(cfg: Config, e0: CipherCtx, d0: CipherCtx, c: Conn, es: seq<Event>)
    requires Inv(cfg, e0, d0, c) && Responses(cfg, c) && Legal(cfg, c, es)
    ensures Responses(cfg, Run(cfg, c, es))
    decreases |es|
  {
    if es != [] {
      StepResponds(cfg, c, es[0]);
      StepKeepsInv(cfg, e0, d0, c, es[0]);
      RunResponds(cfg, e0, d0, Step(cfg, c, es[0]), es[1..]);
    }
  }

  /** In every run TCP_NODELAY is on until the first chunk from the remote was handed on,
      and off from then on unless no_delay asks for it. */
  lemma NoDelayUntilResponse(cfg: Config, e0: CipherCtx, d0: CipherCtx, es: seq<Event>, c: Conn)
    requires Reached(cfg, e0, d0, es, c) && c.server.Some? && c.remote.Some?
    ensures c.remote.value.replied <==> c.io.fromRemote != []
    ensures c.remote.value.prompt <==> cfg.noDelay || c.io.fromRemote == []
  {
    AcceptedInv(cfg, e0, d0);
    RunResponds(cfg, e0, d0, Accepted(cfg, e0, d0), es);
  }

  // ---------------------------------------------------------------- where the code falls short

  /** Writing at the front of a buffer keeps its window iff it does not reach the window
      or repeats it. */
  lemma WriteKeepsWindow(b: Buffer, bytes: Bytes)
    requires b.InBounds()
    ensures b.Write(bytes).Window() == b.Window()
            <==> forall i :: b.idx <= i < b.idx + b.len && i < |bytes| ==> bytes[i] == b.data[i]
  {
    var b' := b.Write(bytes);
    assert forall i :: 0 <= i < |b'.data| ==> b'.data[i] == if i < |bytes| then bytes[i] else b.data[i];
    assert forall i :: 0 <= i < b.len ==> b.Window()[i] == b.data[b.idx + i] && b'.Window()[i] == b'.data[b.idx + i];
    if b'.Window() == b.Window() {
      forall i | b.idx <= i < b.idx + b.len && i < |bytes|
        ensures bytes[i] == b.data[i]
      {
        assert b.Window()[i - b.idx] == b'.Window()[i - b.idx];
      }
    }
  }

  /** After stop_server the client's receive buffer is the one still being sent
      downstream. A chunk read then keeps the pending bytes iff it does not reach
      them or happens to repeat them. */
  lemma StoppedReadOverwrites(cfg: Config, e0: CipherCtx, d0: CipherCtx, c: Conn, e: Event)
    requires Inv(cfg, e0, d0, c) && Enabled(cfg, c, e) && e.ServerRecv? && e.recv.Data?
    requires c.server.value.stage == Stop && c.server.value.sendIo
    ensures var b := c.server.value.buf;
            PendingDown(Step(cfg, c, e)) == PendingDown(c)
            <==> forall i :: b.idx <= i < b.idx + b.len && i < |e.recv.bytes| ==> e.recv.bytes[i] == b.data[i]
  {
    WriteKeepsWindow(c.server.value.buf, e.recv.bytes);
  }

  /** A client that closes, or fails, after stop_server takes only server_t with
      it: the remote stays, and no later callback of this connection can reach it
      iff bytes were still pending for the client at that moment. */
  lemma StoppedCloseOrphans(cfg: Config, e0: CipherCtx, d0: CipherCtx, c: Conn, e: Event)
    requires Inv(cfg, e0, d0, c) && Enabled(cfg, c, e)
    requires e.ServerRecv? && (e.recv.Closed? || e.recv.RecvError?)
    requires c.server.value.stage == Stop && c.remote.Some?
    ensures var c' := Step(cfg, c, e);
            && c'.server.None? && c'.remote == c.remote
            && ((forall f :: Enabled(cfg, c', f) ==> Step(cfg, c', f).remote == c'.remote) <==> c.server.value.sendIo)
  {
    var c' := Step(cfg, c, e);
    if !c.server.value.sendIo {
      var f := RemoteRecv(RecvAgain, SendAgain);
      assert Enabled(cfg, c', f) && Step(cfg, c', f).remote.None?;
    }
  }

  /** Such a remote is never freed. */
  lemma {:induction false} OrphanLeaks(cfg: Config, c: Conn, es: seq<Event>)
    requires Legal(cfg, c, es) && c.server.None? && c.remote.Some?
    requires !c.remote.value.recvIo && !c.remote.value.sendIo
    ensures Run(cfg, c, es).server.None? && Run(cfg, c, es).remote == c.remote
    decreases |es|
  {
    if es != [] {
      OrphanLeaks(cfg, Step(cfg, c, es[0]), es[1..]);
    }
  }
}
