/** The invariant no single callback states, and its preservation by every step. */
module RelayInvariant {
  import opened Octets
  import opened RelayHeader
  import opened RelayMachine

  // ---------------------------------------------------------------- streams

  /** A stream cipher run over a list of chunks from a given context: the context
      it ends in and everything it put out. */
  function Ciphered(f: Cipher, ctx: CipherCtx, chunks: seq<Bytes>): (CipherCtx, Bytes) {
    if chunks == [] then (ctx, [])
    else
      var before := Ciphered(f, ctx, chunks[..|chunks| - 1]);
      var step := f(before.0, chunks[|chunks| - 1]);
      (step.ctx, before.1 + (if step.result.CryptoOk? then step.result.out else []))
  }

  lemma CipheredSnoc(f: Cipher, ctx: CipherCtx, chunks: seq<Bytes>, chunk: Bytes)
    ensures var before := Ciphered(f, ctx, chunks);
            var step := f(before.0, chunk);
            Ciphered(f, ctx, chunks + [chunk])
            == (step.ctx, before.1 + (if step.result.CryptoOk? then step.result.out else []))
  {
    assert (chunks + [chunk])[..|chunks|] == chunks;
  }

  /** The two recorded streams are what the ciphers make of the received chunks. */
  predicate Streams(cfg: Config, e0: CipherCtx, d0: CipherCtx, c: Conn) {
    var up := Ciphered(cfg.dec, d0, c.io.fromClient);
    var down := Ciphered(cfg.enc, e0, c.io.fromRemote);
    && c.note.plain == up.1
    && c.note.sealed == down.1
    && (c.server.Some? ==> c.server.value.dCtx == up.0 && c.server.value.eCtx == down.0)
  }

  /** The client's decrypted stream behind its header. */
  function Payload(c: Conn): Bytes {
    if c.note.header.Some? && c.note.header.value.Parsed? && c.note.header.value.offset <= |c.note.plain|
    then c.note.plain[c.note.header.value.offset..] else []
  }

  // ---------------------------------------------------------------- pending bytes

  /** Bytes on their way to the remote: server->buf while the name is being
      resolved, remote->buf exactly while the remote's send watcher is active. */
  function PendingUp(c: Conn): Bytes {
    if c.remote.Some? then (if c.remote.value.sendIo then c.remote.value.buf.Window() else [])
    else if c.server.Some? && c.server.value.stage == Resolve then c.server.value.buf.Window()
    else []
  }

  /** Bytes on their way to the client: server->buf exactly while the client's
      send watcher is active. */
  function PendingDown(c: Conn): Bytes {
    if c.server.Some? && c.server.value.sendIo then c.server.value.buf.Window() else []
  }

  // ---------------------------------------------------------------- the invariant

  /** Which watchers are active in which stage. */
  predicate WatcherTable(s: Server, remote: Option<Remote>, query: Option<Query>) {
    match s.stage
    case Init =>
      && !s.sendIo && query.None?
      && if remote.None? then s.recvIo else !s.recvIo && remote.value.sendIo && !remote.value.recvIo
    case Resolve =>
      && !s.sendIo && !s.recvIo
      && if remote.None? then query.Some? && !query.value.answered
         else remote.value.sendIo && !remote.value.recvIo && (query.Some? ==> query.value.answered)
    case Stream =>
      && remote.Some? && remote.value.connected
      && s.recvIo != remote.value.sendIo
      && s.sendIo != remote.value.recvIo
      && (query.Some? ==> query.value.answered)
    case Stop =>
      && s.recvIo && (query.Some? ==> query.value.answered)
      && if remote.None? then !s.sendIo else !remote.value.sendIo && s.sendIo != remote.value.recvIo
  }

  predicate Watchers(c: Conn) {
    && (c.server.Some? ==>
          var s := c.server.value;
          && s.timer
          && 2 <= |s.buf.data|
          && (s.stage == Stop <==> c.note.stopped)
          && WatcherTable(s, c.remote, c.query)
          && (s.sendIo && s.buf.len == 0 ==> c.note.zeroBlocked))
    && (c.remote.Some? ==>
          var r := c.remote.value;
          && (r.connected && r.sendIo && r.buf.len == 0 ==> c.note.zeroBlocked)
          && (c.server.None? ==> c.note.stopped && !r.sendIo))
  }

  /** The impossible branches stay untaken; the empty-buffer closes need a kernel
      that refused a send of zero bytes. */
  predicate NoFaults(c: Conn) {
    c.note.faults <= {EmptySend} && (c.note.faults != {} ==> c.note.zeroBlocked)
  }

  /** The recorded header is the one the decrypted stream starts with. */
  predicate HeaderRead(cfg: Config, c: Conn) {
    c.note.header.Some? ==>
      var p := c.note.header.value;
      p.Parsed? && IsHeader(cfg.mask, c.note.plain, p.address, p.port, p.offset)
  }

  /** Upstream conservation. */
  predicate Upstream(c: Conn) {
    && (match c.note.header
        case None => c.io.toRemote == [] && c.remote.None?
        case Some(p) => p.Parsed? && p.offset <= |c.note.plain|)
    && (c.remote.Some? && c.remote.value.sendIo ==> c.remote.value.buf.InBounds())
    && (c.server.None? ==> c.io.toRemote <= Payload(c))
    && (c.server.Some? ==>
          var s := c.server.value;
          && (s.stage == Init && c.remote.None? ==> c.note.plain == [] && c.note.header.None?)
          && (s.stage == Resolve && c.remote.None? ==> s.buf.InBounds() && c.note.header.Some? && c.io.toRemote == [])
          && c.io.toRemote + PendingUp(c) == Payload(c))
  }

  /** Downstream conservation, until stop_server runs. */
  predicate Downstream(c: Conn) {
    && (c.server.Some? && c.server.value.sendIo ==> c.server.value.buf.InBounds())
    && (!c.note.stopped ==>
          if c.server.Some? then c.io.toClient + PendingDown(c) == c.note.sealed
          else c.io.toClient <= c.note.sealed)
  }

  predicate Inv(cfg: Config, e0: CipherCtx, d0: CipherCtx, c: Conn) {
    && Watchers(c)
    && NoFaults(c)
    && Streams(cfg, e0, d0, c)
    && HeaderRead(cfg, c)
    && Upstream(c)
    && Downstream(c)
  }

  // ---------------------------------------------------------------- control

  ghost predicate Control(c: Conn) {
    Watchers(c) && NoFaults(c)
  }

  lemma DialledControl(cfg: Config, c: Conn, target: Target, dial: Dial, fastOpen: bool)
    requires c.server.Some? && c.remote.None? && NoFaults(c) && !c.note.stopped
    requires var s := c.server.value; s.timer && 2 <= |s.buf.data| && !s.sendIo
    requires c.server.value.stage == Init || c.server.value.stage == Resolve
    ensures var d := Dialled(cfg, c, target, dial, fastOpen);
            && NoFaults(d) && d.query == c.query && !d.note.stopped
            && (d.server.None? ==> d.remote.None?)
            && (d.server.Some? ==>
                  var s := d.server.value;
                  && s == c.server.value.(buf := s.buf) && 2 <= |s.buf.data|
                  && d.remote.Some? && var r := d.remote.value; r.sendIo && !r.recvIo && !r.connected)
  {
  }

  lemma StreamDataControl(cfg: Config, c: Conn, bytes: Bytes, send: Send)
    requires Control(c) && c.server.Some? && c.server.value.recvIo && c.server.value.stage == Stream
    ensures Control(StreamData(cfg, c, bytes, send))
  {
  }

  lemma EstablishedControl(cfg: Config, c: Conn, target: Target, needQuery: bool, dial: Dial, fastOpen: bool)
    requires Control(c) && c.server.Some? && c.server.value.recvIo && c.server.value.stage == Init
    ensures Control(Established(cfg, c, target, needQuery, dial, fastOpen))
  {
    if !needQuery {
      DialledControl(cfg, c, target, dial, fastOpen);
    }
  }

  lemma HandshakeControl(cfg: Config, c: Conn, p: ParseResult, verdict: HostVerdict, dial: Dial, fastOpen: bool)
    requires Control(c) && c.server.Some? && c.server.value.recvIo && c.server.value.stage == Init
    requires p.Parsed? ==> p.offset <= c.server.value.buf.len
    ensures Control(Handshake(cfg, c, p, verdict, dial, fastOpen))
  {
    if p.Parsed? && !(p.address.Domain? && (verdict.Blocked? || verdict.BadName?)) {
      EstablishedControl(cfg, HeaderOff(c, p), Target(p.address, p.port),
                         p.address.Domain? && verdict.NeedsQuery?, dial, fastOpen);
    }
  }

  lemma DecryptedControl(cfg: Config, c: Conn, bytes: Bytes, b: Buffer)
    requires Control(c) && c.server.Some? && c.server.value.stage == Init && 2 <= |b.data|
    ensures var (c1, b1, _) := Decrypted(cfg, c, bytes, b);
            && 2 <= |b1.data| && c1.server.value.stage == Init && c1.server.value.recvIo == c.server.value.recvIo
            && Control(c1.(server := Some(c1.server.value.(buf := b1))))
  {
  }

  lemma FirstDataControl(cfg: Config, c: Conn, bytes: Bytes, verdict: HostVerdict, dial: Dial, fastOpen: bool)
    requires Control(c) && c.server.Some? && c.server.value.recvIo && c.server.value.stage == Init
    ensures Control(FirstData(cfg, c, bytes, verdict, dial, fastOpen))
  {
    var (c1, b, result) := Decrypted(cfg, c, bytes, c.server.value.buf);
    DecryptedControl(cfg, c, bytes, c.server.value.buf);
    if result.CryptoOk? {
      var c2 := c1.(server := Some(c1.server.value.(buf := b)));
      HandshakeControl(cfg, c2, Parse(cfg.mask, b.data, b.len), verdict, dial, fastOpen);
    }
  }

  lemma RemoteDataControl(cfg: Config, c: Conn, bytes: Bytes, send: Send)
    requires Control(c) && c.server.Some? && c.remote.Some? && c.remote.value.recvIo && c.server.value.stage != Stop
    ensures Control(RemoteData(cfg, c, bytes, send))
  {
  }

  lemma FlushControl(c: Conn, send: Send)
    requires Control(c) && c.server.Some? && c.remote.Some? && c.remote.value.sendIo && c.remote.value.connected
    requires c.server.value.stage != Stream ==> !c.remote.value.recvIo
    ensures Control(FlushRemote(c, send))
  {
  }

  lemma RemoteSendControl(cfg: Config, c: Conn, peerOk: bool, send: Send)
    requires Control(c) && c.remote.Some? && c.remote.value.sendIo
    ensures Control(OnRemoteSend(c, peerOk, send))
  {
    var r := c.remote.value;
    var c1 := c.(remote := Some(r.(connected := true)));
    if r.connected || (peerOk && r.buf.len != 0) {
      assert r.connected ==> c1 == c;
      if c.server.value.stage == Stream {
        assert r.connected;
      }
      FlushControl(c1, send);
    }
  }

  /** The watcher table and the absence of faults survive every callback. */
  lemma ControlStep(cfg: Config, c: Conn, e: Event)
    requires Control(c) && Enabled(cfg, c, e)
    ensures Control(Step(cfg, c, e))
  {
    match e {
      case ServerRecv(recv, verdict, dial, send, fastOpen) =>
        if recv.Data? {
          if c.server.value.stage == Stream {
            StreamDataControl(cfg, c, recv.bytes, send);
          } else if c.server.value.stage == Init {
            FirstDataControl(cfg, c, recv.bytes, verdict, dial, fastOpen);
          }
        }
      case RemoteRecv(recv, send) =>
        if recv.Data? && c.server.Some? && c.server.value.stage != Stop {
          RemoteDataControl(cfg, c, recv.bytes, send);
        }
      case RemoteSend(peerOk, send) => RemoteSendControl(cfg, c, peerOk, send);
      case Resolved(found, dial, fastOpen) =>
        if c.server.Some? && found {
          var q := c.query.value;
          DialledControl(cfg, c.(query := Some(q.(answered := true))), q.target, dial, fastOpen);
        }
      case _ =>
    }
  }

  // ---------------------------------------------------------------- the header

  lemma HeaderKept(cfg: Config, c: Conn, c': Conn, out: Bytes)
    requires HeaderRead(cfg, c)
    requires c'.note.header == c.note.header && c'.note.plain == c.note.plain + out
    ensures HeaderRead(cfg, c')
  {
    if c.note.header.Some? {
      var off := c.note.header.value.offset;
      assert c'.note.plain[1..off] == c.note.plain[1..off];
    }
  }

  /** A handshake records either nothing or the header the parser accepted. */
  lemma HandshakeNote(cfg: Config, c: Conn, p: ParseResult, verdict: HostVerdict, dial: Dial, fastOpen: bool)
    requires c.server.Some? && (p.Parsed? ==> p.offset <= c.server.value.buf.len)
    ensures var note := Handshake(cfg, c, p, verdict, dial, fastOpen).note;
            note.plain == c.note.plain && (note.header == c.note.header || (p.Parsed? && note.header == Some(p)))
  {
  }

  /** What the parser accepted in the buffer is the header of the decrypted bytes. */
  lemma BufferHeader(mask: bv8, b: Buffer, plain: Bytes)
    requires 2 <= |b.data| && b.len <= |b.data| && b.data[..b.len] == plain
    ensures var p := Parse(mask, b.data, b.len);
            p.Parsed? ==> IsHeader(mask, plain, p.address, p.port, p.offset)
  {
    if Parse(mask, b.data, b.len).Parsed? {
      ParseSound(mask, b.data, b.len);
    }
  }

  lemma FirstDataNote(cfg: Config, c: Conn, bytes: Bytes, verdict: HostVerdict, dial: Dial, fastOpen: bool)
    requires c.server.Some? && 2 <= |c.server.value.buf.data| && c.note.header.None?
    ensures var note := FirstData(cfg, c, bytes, verdict, dial, fastOpen).note;
            note.header.Some? ==>
              var (c1, b, result) := Decrypted(cfg, c, bytes, c.server.value.buf);
              && result.CryptoOk? && note.plain == c1.note.plain == c.note.plain + result.out
              && b.len == |result.out| && result.out <= b.data && 2 <= |b.data|
              && note.header == Some(Parse(cfg.mask, b.data, b.len)) && note.header.value.Parsed?
  {
    var (c1, b, result) := Decrypted(cfg, c, bytes, c.server.value.buf);
    if result.CryptoOk? && c.server.value.stage == Init {
      var c2 := c1.(server := Some(c1.server.value.(buf := b)));
      HandshakeNote(cfg, c2, Parse(cfg.mask, b.data, b.len), verdict, dial, fastOpen);
    }
  }

  lemma FirstDataHeader(cfg: Config, c: Conn, bytes: Bytes, verdict: HostVerdict, dial: Dial, fastOpen: bool)
    requires c.server.Some? && 2 <= |c.server.value.buf.data| && c.note.plain == [] && c.note.header.None?
    ensures HeaderRead(cfg, FirstData(cfg, c, bytes, verdict, dial, fastOpen))
  {
    FirstDataNote(cfg, c, bytes, verdict, dial, fastOpen);
    var note := FirstData(cfg, c, bytes, verdict, dial, fastOpen).note;
    if note.header.Some? {
      var (c1, b, result) := Decrypted(cfg, c, bytes, c.server.value.buf);
      assert b.data[..b.len] == result.out == [] + result.out == note.plain;
      BufferHeader(cfg.mask, b, note.plain);
    }
  }

  lemma DialledNote(cfg: Config, c: Conn, target: Target, dial: Dial, fastOpen: bool)
    requires c.server.Some?
    ensures Dialled(cfg, c, target, dial, fastOpen).note == c.note
  {
  }

  lemma RemoteSendNote(c: Conn, peerOk: bool, send: Send)
    requires c.remote.Some?
    ensures var c' := OnRemoteSend(c, peerOk, send); c'.note.header == c.note.header && c'.note.plain == c.note.plain
  {
  }

  /** Only the first chunk can bring a header, and only chunks from the client bring
      plain bytes. */
  lemma OthersKeepHeader(cfg: Config, c: Conn, e: Event)
    requires Enabled(cfg, c, e) && !(e.ServerRecv? && e.recv.Data?)
    ensures var c' := Step(cfg, c, e); c'.note.header == c.note.header && c'.note.plain == c.note.plain
  {
    match e {
      case RemoteRecv(recv, send) =>
        if recv.Data? && c.server.Some? && c.server.value.stage != Stop {
          RemoteDataUntouched(cfg, c, recv.bytes, send);
        }
      case RemoteSend(peerOk, send) => RemoteSendNote(c, peerOk, send);
      case Resolved(found, dial, fastOpen) =>
        var q := c.query.value;
        if c.server.Some? && found {
          DialledNote(cfg, c.(query := Some(q.(answered := true))), q.target, dial, fastOpen);
        }
      case _ =>
    }
  }

  lemma StreamKeepsHeader(cfg: Config, c: Conn, bytes: Bytes, send: Send)
    requires HeaderRead(cfg, c) && c.server.Some? && c.remote.Some?
    ensures HeaderRead(cfg, StreamData(cfg, c, bytes, send))
  {
    var result := cfg.dec(c.server.value.dCtx, bytes).result;
    HeaderKept(cfg, c, StreamData(cfg, c, bytes, send), if result.CryptoOk? then result.out else []);
  }

  lemma HeaderStep(cfg: Config, c: Conn, e: Event)
    requires Watchers(c) && HeaderRead(cfg, c) && Upstream(c) && Enabled(cfg, c, e)
    ensures HeaderRead(cfg, Step(cfg, c, e))
  {
    if e.ServerRecv? && e.recv.Data? {
      match c.server.value.stage {
        case Init => FirstDataHeader(cfg, c, e.recv.bytes, e.verdict, e.dial, e.fastOpen);
        case Stream => StreamKeepsHeader(cfg, c, e.recv.bytes, e.send);
        case Stop => HeaderKept(cfg, c, Step(cfg, c, e), []);
        case Resolve =>
      }
    } else {
      OthersKeepHeader(cfg, c, e);
      HeaderKept(cfg, c, Step(cfg, c, e), []);
    }
  }

  // ---------------------------------------------------------------- upstream bytes

  /** A send that takes n bytes off the front of the pending window. */
  lemma SendConserves(sent: Bytes, b: Buffer, n: nat, whole: Bytes)
    requires b.InBounds() && n <= b.len && sent + b.Window() == whole
    ensures var b' := b.(idx := b.idx + n, len := b.len - n);
            sent + Slice(b.data, b.idx, n) + b'.Window() == whole
    ensures n == b.len ==> sent + Slice(b.data, b.idx, n) == whole
  {
    var b' := b.(idx := b.idx + n, len := b.len - n);
    assert Slice(b.data, b.idx, n) + b'.Window() == b.Window();
  }

  /** A step that touches neither the upstream bytes nor the payload, and keeps
      the pending bytes or drops the whole client side, keeps conservation. */
  lemma UpstreamKept(c: Conn, c': Conn)
    requires Upstream(c)
    requires c'.io.toRemote == c.io.toRemote && c'.note.plain == c.note.plain && c'.note.header == c.note.header
    requires c'.server.Some? ==>
               && c.server.Some? && c'.server.value.stage == c.server.value.stage
               && (c.server.value.stage == Resolve ==> c'.server.value.buf == c.server.value.buf)
    requires c'.remote.Some? ==>
               && c.remote.Some? && c'.remote.value.sendIo == c.remote.value.sendIo
               && c'.remote.value.buf == c.remote.value.buf
    requires c'.server.Some? ==> (c'.remote.Some? <==> c.remote.Some?)
    ensures Upstream(c')
  {
    if c.server.Some? && c'.server.None? {
      assert c.io.toRemote <= Payload(c);
    }
  }

  /** With the client side alive, conservation is one equation. */
  lemma UpstreamAlive(c: Conn)
    requires c.server.Some? && c.remote.Some? && c.note.header.Some?
    requires c.note.header.value.Parsed? && c.note.header.value.offset <= |c.note.plain|
    requires c.remote.value.sendIo ==> c.remote.value.buf.InBounds()
    requires c.io.toRemote + PendingUp(c) == Payload(c)
    ensures Upstream(c)
  {
  }

  /** The header is in and the rest of server->buf is the whole payload so far. */
  predicate ReadyToDial(c: Conn) {
    && c.server.Some? && c.remote.None? && c.io.toRemote == [] && c.note.header.Some?
    && (c.server.value.stage == Init || c.server.value.stage == Resolve)
    && c.server.value.buf.InBounds() && c.server.value.buf.Window() == Payload(c)
    && c.note.header.value.Parsed? && c.note.header.value.offset <= |c.note.plain|
  }

  /** The hand-over keeps the pending window. */
  lemma HandOverKeeps(b: Buffer, theirs: Buffer)
    requires b.InBounds() && theirs.InBounds() && theirs.len == 0
    ensures var r := HandOver(b, theirs).1; r.InBounds() && r.Window() == b.Window()
  {
  }

  /** Where the payload goes when dialling succeeds. */
  lemma DialledPieces(cfg: Config, c: Conn, target: Target, dial: Dial, fastOpen: bool)
    requires c.server.Some? && DialOk(dial, fastOpen)
    ensures var d := Dialled(cfg, c, target, dial, fastOpen);
            var b := c.server.value.buf;
            var n := FastOpenSent(dial, fastOpen, b.len);
            && n <= b.len && d.server.Some? && d.remote.Some? && d.remote.value.sendIo && d.note == c.note
            && d.io.toRemote == c.io.toRemote + Slice(b.data, b.idx, n)
            && d.remote.value.buf == HandOver(b.(idx := b.idx + n, len := b.len - n), BlankBuffer(cfg.cap)).1
  {
  }

  /** What fast open sent and what was handed over are the whole window. */
  lemma FastOpenConserves(b: Buffer, n: nat, cap: nat, whole: Bytes)
    requires b.InBounds() && n <= b.len && b.Window() == whole
    ensures var r := HandOver(b.(idx := b.idx + n, len := b.len - n), BlankBuffer(cap)).1;
            r.InBounds() && [] + Slice(b.data, b.idx, n) + r.Window() == whole
  {
    assert [] + b.Window() == whole;
    SendConserves([], b, n, whole);
    HandOverKeeps(b.(idx := b.idx + n, len := b.len - n), BlankBuffer(cap));
  }

  /** Fast-open bytes plus the hand-over are exactly the payload. */
  lemma DialledUpstream(cfg: Config, c: Conn, target: Target, dial: Dial, fastOpen: bool)
    requires ReadyToDial(c)
    ensures Upstream(Dialled(cfg, c, target, dial, fastOpen))
    ensures var d := Dialled(cfg, c, target, dial, fastOpen); d.server.Some? ==> d.remote.Some?
  {
    var d := Dialled(cfg, c, target, dial, fastOpen);
    if DialOk(dial, fastOpen) {
      var b := c.server.value.buf;
      DialledPieces(cfg, c, target, dial, fastOpen);
      FastOpenConserves(b, FastOpenSent(dial, fastOpen, b.len), cfg.cap, Payload(c));
      UpstreamAlive(d);
    } else {
      assert d.server.None? && d.remote.None? && d.io.toRemote == [];
    }
  }

  /** A decrypted chunk extends the payload. */
  lemma PayloadGrows(c: Conn, c': Conn, out: Bytes)
    requires c.note.header.Some? && c.note.header.value.Parsed? && c.note.header.value.offset <= |c.note.plain|
    requires c'.note.header == c.note.header && c'.note.plain == c.note.plain + out
    ensures Payload(c') == Payload(c) + out
  {
  }

  /** What the cipher wrote is the window at the start of the buffer. */
  lemma FreshWindow(b: Buffer, out: Bytes)
    requires out <= b.data && b.len == |out| && b.idx == 0
    ensures b.InBounds() && b.Window() == out
  {
  }

  /** Sending the chunk at the start of remote->buf conserves the payload. */
  lemma SendUpUpstream(c: Conn, send: Send)
    requires c.server.Some? && c.remote.Some? && !c.remote.value.sendIo && c.note.header.Some?
    requires c.note.header.value.Parsed? && c.note.header.value.offset <= |c.note.plain|
    requires var b := c.remote.value.buf.(idx := 0);
             b.InBounds() && c.io.toRemote + b.Window() == Payload(c)
    ensures Upstream(SendUp(c, send))
  {
    var b := c.remote.value.buf.(idx := 0);
    var c' := SendUp(c, send);
    SendConserves(c.io.toRemote, b, if send.Sent? then Min(send.n, b.len) else 0, Payload(c));
    assert c'.io.toRemote + [] == c'.io.toRemote;
    if !send.SendError? {
      UpstreamAlive(c');
    }
  }

  lemma StreamDataUpstream(cfg: Config, c: Conn, bytes: Bytes, send: Send)
    requires Upstream(c) && c.server.Some? && c.remote.Some? && !c.remote.value.sendIo
    ensures Upstream(StreamData(cfg, c, bytes, send))
  {
    var (c1, b, result) := Decrypted(cfg, c, bytes, c.remote.value.buf);
    assert c.io.toRemote + [] == c.io.toRemote;
    if result.CryptoOk? {
      PayloadGrows(c, c1, result.out);
      FreshWindow(b.(idx := 0), result.out);
      SendUpUpstream(c1.(remote := Some(c1.remote.value.(buf := b))), send);
    } else {
      UpstreamAlive(StreamData(cfg, c, bytes, send));
    }
  }

  /** Cutting the header off the front of the first decrypted chunk. */
  lemma HeaderCut(b: Buffer, off: nat)
    requires b.len <= |b.data| && off <= b.len
    ensures var b' := b.(idx := off, len := b.len - off);
            b'.InBounds() && b'.Window() == b.data[..b.len][off..]
  {
  }

  lemma EstablishedUpstream(cfg: Config, c: Conn, target: Target, needQuery: bool, dial: Dial, fastOpen: bool)
    requires ReadyToDial(c)
    ensures Upstream(Established(cfg, c, target, needQuery, dial, fastOpen))
  {
    if needQuery {
      assert c.io.toRemote + c.server.value.buf.Window() == c.server.value.buf.Window();
    } else {
      DialledUpstream(cfg, c, target, dial, fastOpen);
      UpstreamOnRecvStopped(Dialled(cfg, c, target, dial, fastOpen));
    }
  }

  /** Before a header is accepted there is nothing to conserve. */
  lemma UpstreamBeforeHeader(c: Conn)
    requires c.note.header.None? && c.io.toRemote == [] && c.remote.None?
    requires c.server.Some? ==> c.server.value.stage == Stop
    ensures Upstream(c)
  {
  }

  /** The connection once the header `p` is off its buffer. */
  function HeaderOff(c: Conn, p: ParseResult): Conn
    requires c.server.Some? && p.Parsed? && p.offset <= c.server.value.buf.len
  {
    var b := c.server.value.buf;
    c.(server := Some(c.server.value.(buf := b.(idx := p.offset, len := b.len - p.offset))),
       note := c.note.(header := Some(p)))
  }

  /** An accepted header leaves exactly the payload in server->buf. */
  lemma HandshakeReady(c: Conn, p: ParseResult)
    requires c.server.Some? && c.server.value.stage == Init && c.remote.None? && c.io.toRemote == []
    requires var b := c.server.value.buf; b.len <= |b.data| && b.data[..b.len] == c.note.plain
    requires p.Parsed? && p.offset <= c.server.value.buf.len
    ensures ReadyToDial(HeaderOff(c, p))
  {
    HeaderCut(c.server.value.buf, p.offset);
  }

  lemma HandshakeUpstream(cfg: Config, c: Conn, p: ParseResult, verdict: HostVerdict, dial: Dial, fastOpen: bool)
    requires c.server.Some? && c.remote.None? && c.note.header.None? && c.io.toRemote == []
    requires p.Parsed? ==> p.offset <= c.server.value.buf.len && ReadyToDial(HeaderOff(c, p))
    ensures Upstream(Handshake(cfg, c, p, verdict, dial, fastOpen))
  {
    if p.Reject? || (p.address.Domain? && (verdict.Blocked? || verdict.BadName?)) {
      UpstreamBeforeHeader(Handshake(cfg, c, p, verdict, dial, fastOpen));
    } else {
      EstablishedUpstream(cfg, HeaderOff(c, p), Target(p.address, p.port),
                          p.address.Domain? && verdict.NeedsQuery?, dial, fastOpen);
    }
  }

  /** Stopping the client's receive watcher moves no bytes. */
  lemma UpstreamOnRecvStopped(c: Conn)
    requires Upstream(c)
    ensures c.server.Some? ==> Upstream(c.(server := Some(c.server.value.(recvIo := false))))
  {
    if c.server.Some? {
      UpstreamKept(c, c.(server := Some(c.server.value.(recvIo := false))));
    }
  }

  /** The first chunk decrypted into server->buf: parse it and act on it. */
  lemma ParsedUpstream(cfg: Config, c: Conn, verdict: HostVerdict, dial: Dial, fastOpen: bool)
    requires c.server.Some? && c.server.value.stage == Init && c.remote.None?
    requires c.note.header.None? && c.io.toRemote == []
    requires var b := c.server.value.buf; 2 <= |b.data| && b.len <= |b.data| && b.data[..b.len] == c.note.plain
    ensures var b := c.server.value.buf;
            Upstream(Handshake(cfg, c, Parse(cfg.mask, b.data, b.len), verdict, dial, fastOpen))
  {
    var b := c.server.value.buf;
    var p := Parse(cfg.mask, b.data, b.len);
    if p.Parsed? {
      HandshakeReady(c, p);
    }
    HandshakeUpstream(cfg, c, p, verdict, dial, fastOpen);
  }

  /** Decrypting into a buffer puts the output at its front. */
  lemma DecryptedFront(cfg: Config, c: Conn, bytes: Bytes, b: Buffer)
    requires c.server.Some?
    ensures var (c1, b1, result) := Decrypted(cfg, c, bytes, b);
            && c1.remote == c.remote && c1.query == c.query && c1.io.toRemote == c.io.toRemote
            && c1.note.header == c.note.header && c1.server.value.stage == c.server.value.stage
            && |b.data| <= |b1.data| && b1.len <= |b1.data| && b1.idx == b.idx
            && (result.CryptoOk? ==> b1.data[..b1.len] == result.out && c1.note.plain == c.note.plain + result.out)
            && (!result.CryptoOk? ==> c1.note.plain == c.note.plain)
  {
  }

  lemma FirstDataUpstream(cfg: Config, c: Conn, bytes: Bytes, verdict: HostVerdict, dial: Dial, fastOpen: bool)
    requires Watchers(c) && Upstream(c)
    requires c.server.Some? && c.server.value.recvIo && c.server.value.stage == Init
    ensures Upstream(FirstData(cfg, c, bytes, verdict, dial, fastOpen))
  {
    var (c1, b, result) := Decrypted(cfg, c, bytes, c.server.value.buf);
    DecryptedFront(cfg, c, bytes, c.server.value.buf);
    if result.CryptoOk? {
      assert [] + result.out == result.out;
      ParsedUpstream(cfg, c1.(server := Some(c1.server.value.(buf := b))), verdict, dial, fastOpen);
    }
  }

  lemma ServerRecvUpstream(cfg: Config, c: Conn, recv: Recv, verdict: HostVerdict, dial: Dial, send: Send,
                           fastOpen: bool)
    requires Watchers(c) && Upstream(c) && c.server.Some? && c.server.value.recvIo
    ensures Upstream(OnServerRecv(cfg, c, recv, verdict, dial, send, fastOpen))
  {
    match recv {
      case Data(bytes) =>
        match c.server.value.stage {
          case Stream => StreamDataUpstream(cfg, c, bytes, send);
          case Stop => UpstreamKept(c, OnServerRecv(cfg, c, recv, verdict, dial, send, fastOpen));
          case Init => FirstDataUpstream(cfg, c, bytes, verdict, dial, fastOpen);
          case Resolve =>
        }
      case _ => UpstreamKept(c, OnServerRecv(cfg, c, recv, verdict, dial, send, fastOpen));
    }
  }

  lemma FlushUpstream(c: Conn, send: Send)
    requires Upstream(c) && c.server.Some? && c.remote.Some? && c.remote.value.sendIo
    ensures Upstream(FlushRemote(c, send))
  {
    var b := c.remote.value.buf;
    if send.Sent? && b.len != 0 {
      var c' := FlushRemote(c, send);
      SendConserves(c.io.toRemote, b, Min(send.n, b.len), Payload(c));
      assert c'.io.toRemote + [] == c'.io.toRemote;
      UpstreamAlive(c');
    } else {
      UpstreamKept(c, FlushRemote(c, send));
    }
  }

  lemma RemoteSendUpstream(c: Conn, peerOk: bool, send: Send)
    requires Watchers(c) && Upstream(c) && c.remote.Some? && c.remote.value.sendIo
    ensures Upstream(OnRemoteSend(c, peerOk, send))
  {
    var r := c.remote.value;
    var c1 := c.(remote := Some(r.(connected := true)));
    UpstreamKept(c, c1);
    if !r.connected && !peerOk {
      UpstreamKept(c, CloseBoth(c));
    } else if r.connected || r.buf.len != 0 {
      assert r.connected ==> c1 == c;
      FlushUpstream(c1, send);
    }
  }

  /** Downstream traffic moves no upstream bytes. */
  lemma ServerSendUpstream(c: Conn, send: Send)
    requires Watchers(c) && Upstream(c) && c.server.Some? && c.server.value.sendIo
    ensures Upstream(OnServerSend(c, send))
  {
    UpstreamKept(c, OnServerSend(c, send));
  }

  /** What relaying a chunk to the client leaves alone. */
  predicate UpstreamUntouched(c: Conn, c': Conn) {
    && c'.io.toRemote == c.io.toRemote && c'.note.plain == c.note.plain && c'.note.header == c.note.header
    && (c'.server.Some? ==> c.server.Some? && c'.server.value.stage == c.server.value.stage)
    && (c'.remote.Some? ==>
          && c.remote.Some? && c'.remote.value.sendIo == c.remote.value.sendIo
          && c'.remote.value.buf == c.remote.value.buf)
    && (c'.server.Some? ==> (c'.remote.Some? <==> c.remote.Some?))
  }

  lemma SendDownUntouched(c: Conn, send: Send)
    requires c.server.Some? && c.remote.Some?
    ensures UpstreamUntouched(c, SendDown(c, send))
  {
  }

  lemma RemoteDataUntouched(cfg: Config, c: Conn, bytes: Bytes, send: Send)
    requires c.server.Some? && c.remote.Some?
    ensures UpstreamUntouched(c, RemoteData(cfg, c, bytes, send))
  {
    SendDownUntouched(Encrypted(cfg, c, bytes), send);
  }

  lemma RemoteRecvUpstream(cfg: Config, c: Conn, recv: Recv, send: Send)
    requires Watchers(c) && Upstream(c) && c.remote.Some? && c.remote.value.recvIo
    ensures Upstream(OnRemoteRecv(cfg, c, recv, send))
  {
    if recv.Data? && c.server.Some? && c.server.value.stage != Stop {
      RemoteDataUntouched(cfg, c, recv.bytes, send);
    }
    UpstreamKept(c, OnRemoteRecv(cfg, c, recv, send));
  }

  /** Upstream conservation survives every callback. */
  lemma UpstreamStep(cfg: Config, c: Conn, e: Event)
    requires Watchers(c) && Upstream(c) && Enabled(cfg, c, e)
    ensures Upstream(Step(cfg, c, e))
  {
    match e {
      case ServerRecv(recv, verdict, dial, send, fastOpen) =>
        ServerRecvUpstream(cfg, c, recv, verdict, dial, send, fastOpen);
      case RemoteSend(peerOk, send) => RemoteSendUpstream(c, peerOk, send);
      case Resolved(found, dial, fastOpen) =>
        var q := c.query.value;
        if c.server.Some? && found {
          DialledUpstream(cfg, c.(query := Some(q.(answered := true))), q.target, dial, fastOpen);
        } else {
          UpstreamKept(c, Step(cfg, c, e));
        }
      case ServerSend(send) => ServerSendUpstream(c, send);
      case RemoteRecv(recv, send) => RemoteRecvUpstream(cfg, c, recv, send);
      case Timeout => UpstreamKept(c, Step(cfg, c, e));
      case ResolvFree => UpstreamKept(c, Step(cfg, c, e));
    }
  }

  // ---------------------------------------------------------------- downstream bytes

  /** A step that touches neither the downstream bytes nor the encrypted stream,
      and keeps what is pending for the client or drops the client side. */
  lemma DownstreamKept(c: Conn, c': Conn)
    requires Downstream(c)
    requires c'.io.toClient == c.io.toClient && c'.note.sealed == c.note.sealed
    requires c.note.stopped ==> c'.note.stopped
    requires c'.server.Some? ==>
               && c.server.Some? && c'.server.value.sendIo == c.server.value.sendIo
               && (c.server.value.sendIo ==>
                     var b, b' := c.server.value.buf, c'.server.value.buf;
                     if c'.note.stopped then b'.idx == b.idx && b'.len == b.len && |b.data| <= |b'.data| else b' == b)
    ensures Downstream(c')
  {
    if c.server.Some? && c'.server.None? {
      assert c.io.toClient <= c.io.toClient + PendingDown(c);
    }
  }

  /** With the client side alive and not stopped, conservation is one equation. */
  lemma DownstreamAlive(c: Conn)
    requires c.server.Some? && (c.server.value.sendIo ==> c.server.value.buf.InBounds())
    requires c.io.toClient + PendingDown(c) == c.note.sealed
    ensures Downstream(c)
  {
  }

  /** A send to the client shrinks the window from the front, stopped or not. */
  lemma ServerSendDownstream(c: Conn, send: Send)
    requires Downstream(c) && c.server.Some? && c.server.value.sendIo
    ensures Downstream(OnServerSend(c, send))
  {
    var b := c.server.value.buf;
    var c' := OnServerSend(c, send);
    if c.remote.Some? && send.Sent? && b.len != 0 {
      if !c.note.stopped {
        SendConserves(c.io.toClient, b, Min(send.n, b.len), c.note.sealed);
        assert c'.io.toClient + [] == c'.io.toClient;
        DownstreamAlive(c');
      }
    } else {
      DownstreamKept(c, c');
    }
  }

  lemma RemoteDataDownstream(cfg: Config, c: Conn, bytes: Bytes, send: Send)
    requires Downstream(c) && c.server.Some? && c.remote.Some? && !c.server.value.sendIo && !c.note.stopped
    ensures Downstream(RemoteData(cfg, c, bytes, send))
  {
    var step := cfg.enc(c.server.value.eCtx, bytes);
    var c' := RemoteData(cfg, c, bytes, send);
    assert c.io.toClient + [] == c.io.toClient;
    if step.result.CryptoOk? {
      var out := step.result.out;
      var front := c.server.value.buf.Write(bytes).Write(out).(len := |out|, idx := 0);
      FreshWindow(front, out);
      SendConserves(c.io.toClient, front, if send.Sent? then Min(send.n, |out|) else 0, c.note.sealed + out);
      assert c'.io.toClient + [] == c'.io.toClient;
      if !send.SendError? {
        DownstreamAlive(c');
      }
    }
  }

  /** What every read from the client leaves alone. */
  predicate DownstreamUntouched(c: Conn, c': Conn) {
    && c'.io.toClient == c.io.toClient && c'.io.fromRemote == c.io.fromRemote && c'.note.sealed == c.note.sealed
    && (c.note.stopped ==> c'.note.stopped)
    && (c'.server.Some? ==>
          && c.server.Some? && c'.server.value.sendIo == c.server.value.sendIo
          && c'.server.value.eCtx == c.server.value.eCtx)
  }

  /** Before stop_server, a chunk from the client is decrypted once, in order. */
  predicate Fed(cfg: Config, c: Conn, c': Conn, bytes: Bytes)
    requires c.server.Some?
  {
    var step := cfg.dec(c.server.value.dCtx, bytes);
    && c'.io.fromClient == c.io.fromClient + [bytes]
    && c'.note.plain == c.note.plain + (if step.result.CryptoOk? then step.result.out else [])
    && (c'.server.Some? ==> c'.server.value.dCtx == step.ctx)
  }

  /** A handshake starts no cipher and moves nothing to the client. */
  lemma HandshakeUntouched(cfg: Config, c: Conn, p: ParseResult, verdict: HostVerdict, dial: Dial, fastOpen: bool)
    requires c.server.Some? && (p.Parsed? ==> p.offset <= c.server.value.buf.len)
    ensures var c' := Handshake(cfg, c, p, verdict, dial, fastOpen);
            && DownstreamUntouched(c, c')
            && c'.io.fromClient == c.io.fromClient && c'.note.plain == c.note.plain
            && (c'.server.Some? ==> c'.server.value.dCtx == c.server.value.dCtx)
  {
  }

  lemma DecryptedUntouched(cfg: Config, c: Conn, bytes: Bytes, b: Buffer)
    requires c.server.Some?
    ensures var c1 := Decrypted(cfg, c, bytes, b).0; DownstreamUntouched(c, c1) && Fed(cfg, c, c1, bytes)
  {
  }

  lemma FirstDataUntouched(cfg: Config, c: Conn, bytes: Bytes, verdict: HostVerdict, dial: Dial, fastOpen: bool)
    requires c.server.Some? && 2 <= |c.server.value.buf.data|
    ensures DownstreamUntouched(c, FirstData(cfg, c, bytes, verdict, dial, fastOpen))
    ensures Fed(cfg, c, FirstData(cfg, c, bytes, verdict, dial, fastOpen), bytes)
  {
    var (c1, b, result) := Decrypted(cfg, c, bytes, c.server.value.buf);
    DecryptedUntouched(cfg, c, bytes, c.server.value.buf);
    if result.CryptoOk? {
      var c2 := c1.(server := Some(c1.server.value.(buf := b)));
      HandshakeUntouched(cfg, c2, Parse(cfg.mask, b.data, b.len), verdict, dial, fastOpen);
    }
  }

  lemma StreamDataUntouched(cfg: Config, c: Conn, bytes: Bytes, send: Send)
    requires c.server.Some? && c.remote.Some?
    ensures var c' := StreamData(cfg, c, bytes, send);
            DownstreamUntouched(c, c') && (c'.server.Some? ==> c'.server.value.buf == c.server.value.buf)
  {
  }

  lemma ServerRecvUntouched(cfg: Config, c: Conn, recv: Recv, verdict: HostVerdict, dial: Dial, send: Send,
                            fastOpen: bool)
    requires c.server.Some? && 2 <= |c.server.value.buf.data|
    ensures DownstreamUntouched(c, OnServerRecv(cfg, c, recv, verdict, dial, send, fastOpen))
  {
    if recv.Data? {
      if c.server.value.stage == Stream && c.remote.Some? {
        StreamDataUntouched(cfg, c, recv.bytes, send);
      } else if c.server.value.stage == Init || c.server.value.stage == Resolve {
        FirstDataUntouched(cfg, c, recv.bytes, verdict, dial, fastOpen);
      }
    }
  }

  /** Reading from the client leaves the downstream window alone until stop_server
      has run; from then on it may overwrite the window's bytes, never its bounds. */
  lemma ServerRecvDownstream(cfg: Config, c: Conn, recv: Recv, verdict: HostVerdict, dial: Dial, send: Send,
                             fastOpen: bool)
    requires Watchers(c) && Downstream(c) && c.server.Some? && c.server.value.recvIo
    ensures Downstream(OnServerRecv(cfg, c, recv, verdict, dial, send, fastOpen))
  {
    ServerRecvUntouched(cfg, c, recv, verdict, dial, send, fastOpen);
    if recv.Data? && c.server.value.stage == Stream {
      StreamDataUntouched(cfg, c, recv.bytes, send);
    }
    DownstreamKept(c, OnServerRecv(cfg, c, recv, verdict, dial, send, fastOpen));
  }

  /** Downstream conservation survives every callback, up to stop_server. */
  lemma DownstreamStep(cfg: Config, c: Conn, e: Event)
    requires Watchers(c) && Downstream(c) && Enabled(cfg, c, e)
    ensures Downstream(Step(cfg, c, e))
  {
    match e {
      case ServerSend(send) => ServerSendDownstream(c, send);
      case RemoteRecv(recv, send) =>
        if recv.Data? && c.server.Some? && c.server.value.stage != Stop {
          RemoteDataDownstream(cfg, c, recv.bytes, send);
        } else {
          DownstreamKept(c, Step(cfg, c, e));
        }
      case ServerRecv(recv, verdict, dial, send, fastOpen) =>
        ServerRecvDownstream(cfg, c, recv, verdict, dial, send, fastOpen);
      case _ => DownstreamKept(c, Step(cfg, c, e));
    }
  }

  // ---------------------------------------------------------------- ciphers

  lemma StreamDataFed(cfg: Config, c: Conn, bytes: Bytes, send: Send)
    requires c.server.Some? && c.remote.Some?
    ensures Fed(cfg, c, StreamData(cfg, c, bytes, send), bytes)
  {
  }

  /** The same for a chunk from the remote and the encrypted stream. */
  predicate FedDown(cfg: Config, c: Conn, c': Conn, bytes: Bytes)
    requires c.server.Some?
  {
    var step := cfg.enc(c.server.value.eCtx, bytes);
    && c'.io.fromRemote == c.io.fromRemote + [bytes] && c'.io.fromClient == c.io.fromClient
    && c'.note.sealed == c.note.sealed + (if step.result.CryptoOk? then step.result.out else [])
    && c'.note.plain == c.note.plain
    && (c'.server.Some? ==> c'.server.value.eCtx == step.ctx && c'.server.value.dCtx == c.server.value.dCtx)
  }

  /** No cipher ran. */
  predicate NoCipher(c: Conn, c': Conn) {
    && c'.io.fromClient == c.io.fromClient && c'.io.fromRemote == c.io.fromRemote
    && c'.note.plain == c.note.plain && c'.note.sealed == c.note.sealed
    && (c'.server.Some? ==>
          && c.server.Some? && c'.server.value.dCtx == c.server.value.dCtx
          && c'.server.value.eCtx == c.server.value.eCtx)
  }

  lemma StreamsKept(cfg: Config, e0: CipherCtx, d0: CipherCtx, c: Conn, c': Conn)
    requires Streams(cfg, e0, d0, c) && NoCipher(c, c')
    ensures Streams(cfg, e0, d0, c')
  {
  }

  lemma StreamsUp(cfg: Config, e0: CipherCtx, d0: CipherCtx, c: Conn, c': Conn, bytes: Bytes)
    requires Streams(cfg, e0, d0, c) && c.server.Some? && Fed(cfg, c, c', bytes) && DownstreamUntouched(c, c')
    ensures Streams(cfg, e0, d0, c')
  {
    CipheredSnoc(cfg.dec, d0, c.io.fromClient, bytes);
  }

  lemma StreamsDown(cfg: Config, e0: CipherCtx, d0: CipherCtx, c: Conn, c': Conn, bytes: Bytes)
    requires Streams(cfg, e0, d0, c) && c.server.Some? && FedDown(cfg, c, c', bytes)
    ensures Streams(cfg, e0, d0, c')
  {
    CipheredSnoc(cfg.enc, e0, c.io.fromRemote, bytes);
  }

  lemma SendDownNoCipher(c: Conn, send: Send)
    requires c.server.Some? && c.remote.Some?
    ensures NoCipher(c, SendDown(c, send))
  {
  }

  lemma RemoteDataFed(cfg: Config, c: Conn, bytes: Bytes, send: Send)
    requires c.server.Some? && c.remote.Some?
    ensures FedDown(cfg, c, RemoteData(cfg, c, bytes, send), bytes)
  {
    SendDownNoCipher(Encrypted(cfg, c, bytes), send);
  }

  /** A callback that brings no chunk, or brings one to a stopped connection. */
  predicate Chunkless(c: Conn, e: Event) {
    match e
    case ServerRecv(recv, _, _, _, _) =>
      !recv.Data? || (c.server.Some? && (c.server.value.stage == Stop
                                         || (c.server.value.stage == Stream && c.remote.None?)))
    case RemoteRecv(recv, _) => !recv.Data? || c.server.None? || c.server.value.stage == Stop
    case _ => true
  }

  lemma DialledNoCipher(cfg: Config, c: Conn, target: Target, dial: Dial, fastOpen: bool)
    requires c.server.Some?
    ensures NoCipher(c, Dialled(cfg, c, target, dial, fastOpen))
  {
  }

  lemma RemoteSendNoCipher(c: Conn, peerOk: bool, send: Send)
    requires c.remote.Some?
    ensures NoCipher(c, OnRemoteSend(c, peerOk, send))
  {
  }

  lemma ChunklessNoCipher(cfg: Config, c: Conn, e: Event)
    requires Enabled(cfg, c, e) && Chunkless(c, e)
    ensures NoCipher(c, Step(cfg, c, e))
  {
    match e {
      case RemoteSend(peerOk, send) => RemoteSendNoCipher(c, peerOk, send);
      case Resolved(found, dial, fastOpen) =>
        var q := c.query.value;
        if c.server.Some? && found {
          DialledNoCipher(cfg, c.(query := Some(q.(answered := true))), q.target, dial, fastOpen);
        }
      case _ =>
    }
  }

  lemma ClientChunkFed(cfg: Config, c: Conn, e: Event)
    requires Enabled(cfg, c, e) && e.ServerRecv? && !Chunkless(c, e)
    ensures Fed(cfg, c, Step(cfg, c, e), e.recv.bytes) && DownstreamUntouched(c, Step(cfg, c, e))
  {
    if c.server.value.stage == Stream {
      StreamDataFed(cfg, c, e.recv.bytes, e.send);
      StreamDataUntouched(cfg, c, e.recv.bytes, e.send);
    } else {
      FirstDataUntouched(cfg, c, e.recv.bytes, e.verdict, e.dial, e.fastOpen);
    }
  }

  /** The recorded streams and contexts follow the ciphers through every callback. */
  lemma StreamsStep(cfg: Config, e0: CipherCtx, d0: CipherCtx, c: Conn, e: Event)
    requires Watchers(c) && Streams(cfg, e0, d0, c) && Enabled(cfg, c, e)
    ensures Streams(cfg, e0, d0, Step(cfg, c, e))
  {
    var c' := Step(cfg, c, e);
    if Chunkless(c, e) {
      ChunklessNoCipher(cfg, c, e);
      StreamsKept(cfg, e0, d0, c, c');
    } else if e.ServerRecv? {
      ClientChunkFed(cfg, c, e);
      StreamsUp(cfg, e0, d0, c, c', e.recv.bytes);
    } else {
      RemoteDataFed(cfg, c, e.recv.bytes, e.send);
      StreamsDown(cfg, e0, d0, c, c', e.recv.bytes);
    }
  }

  // ---------------------------------------------------------------- all of it, over runs

  lemma StepKeepsInv(cfg: Config, e0: CipherCtx, d0: CipherCtx, c: Conn, e: Event)
    requires Inv(cfg, e0, d0, c) && Enabled(cfg, c, e)
    ensures Inv(cfg, e0, d0, Step(cfg, c, e))
  {
    ControlStep(cfg, c, e);
    StreamsStep(cfg, e0, d0, c, e);
    HeaderStep(cfg, c, e);
    UpstreamStep(cfg, c, e);
    DownstreamStep(cfg, c, e);
  }

  lemma AcceptedInv(cfg: Config, e0: CipherCtx, d0: CipherCtx)
    requires 2 <= cfg.cap
    ensures Inv(cfg, e0, d0, Accepted(cfg, e0, d0))
  {
  }

  /** The invariant holds after every legal sequence of callbacks. */
  lemma {:induction false} RunKeepsInv(cfg: Config, e0: CipherCtx, d0: CipherCtx, c: Conn, es: seq<Event>)
    requires Inv(cfg, e0, d0, c) && Legal(cfg, c, es)
    ensures Inv(cfg, e0, d0, Run(cfg, c, es))
    decreases |es|
  {
    if es != [] {
      StepKeepsInv(cfg, e0, d0, c, es[0]);
      RunKeepsInv(cfg, e0, d0, Step(cfg, c, es[0]), es[1..]);
    }
  }
}
