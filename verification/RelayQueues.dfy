/** The relay without buffers and watchers: a connection as two queues of bytes, with what
    each callback has to do to them. The machine of RelayMachine is proved to be this one,
    in both directions and over every run: the same callbacks can fire, the same bytes cross
    the sockets, and the same connections close. Nothing here knows of windows, stale bytes,
    armed watchers, cipher contexts or the header parser. */
module RelayQueues {
  import opened Octets
  import opened RelayHeader
  import opened RelayMachine
  import opened RelayInvariant
  import opened RelayTheorems

  /** One direction: free for the next chunk, or with the rest of a chunk waiting for its
      socket after `gone` bytes of it went out. */
  datatype Lane = Free | Waiting(rest: Bytes, gone: nat)

  /** Where a connection stands: reading its header, after so many incomplete chunks; asking
      for a name; connecting, with the first payload; relaying; stopped, with or without a
      remote; its remote left alone; gone. */
  datatype Phase =
    | Reading(chunks: nat)
    | Asking(payload: Bytes)
    | Connecting(confirmed: bool, rest: Bytes, gone: nat)
    | Relaying(up: Lane, down: Lane)
    | Stopped(remote: bool, down: Lane)
    | Orphaned(readable: bool)
    | Gone

  datatype Link = Link(phase: Phase, query: Option<Query>, io: Io)

  // ---------------------------------------------------------------- sending

  datatype Sending = Broken | Took(sent: Bytes, lane: Lane)

  function Take(rest: Bytes, gone: nat, send: Send): Sending {
    match send
    case SendError => Broken
    case SendAgain => Took([], Waiting(rest, gone))
    case Sent(k) => if k < |rest| then Took(rest[..k], Waiting(rest[k..], gone + k)) else Took(rest, Free)
  }

  /** Writability was reported: an empty queue is a broken connection. */
  function Resume(rest: Bytes, gone: nat, send: Send): Sending {
    if rest == [] then Broken else Take(rest, gone, send)
  }

  /** Bytes read into the buffer that holds a waiting chunk. */
  function Spoilt(lane: Lane, bytes: Bytes): Lane {
    match lane
    case Free => Free
    case Waiting(rest, gone) =>
      Waiting(seq(|rest|, i requires 0 <= i < |rest| => if gone + i < |bytes| then bytes[gone + i] else rest[i]), gone)
  }

  // ---------------------------------------------------------------- opening

  ghost predicate HasHeader(mask: bv8, out: Bytes) {
    exists a, port, off :: IsHeader(mask, out, a, port, off)
  }

  ghost function HeaderOf(mask: bv8, out: Bytes): (h: (Target, nat))
    requires HasHeader(mask, out)
    ensures IsHeader(mask, out, h.0.address, h.0.port, h.1)
  {
    var a, port, off :| IsHeader(mask, out, a, port, off);
    (Target(a, port), off)
  }

  predicate Connects(dial: Dial, fastOpen: bool) {
    dial.socketOk && (dial.connectOk || (fastOpen && !dial.fo.FoUnsupported?))
  }

  function Dialling(l: Link, target: Target, payload: Bytes, dial: Dial, fastOpen: bool): Link {
    var io := if dial.socketOk then l.io.(dialled := l.io.dialled + [target]) else l.io;
    if !Connects(dial, fastOpen) then l.(phase := Gone, io := io)
    else
      var n := if fastOpen && dial.fo.FoSent? then Min(dial.fo.n, |payload|) else 0;
      l.(phase := Connecting(false, payload[n..], 0), io := io.(toRemote := io.toRemote + payload[..n]))
  }

  /** The first chunk that decrypts. */
  ghost function Opening(cfg: Config, l: Link, out: Bytes, verdict: HostVerdict, dial: Dial, fastOpen: bool): Link {
    if !HasHeader(cfg.mask, out) then l.(phase := Stopped(false, Free))
    else
      var (target, off) := HeaderOf(cfg.mask, out);
      var name := target.address.Domain?;
      if name && verdict.Blocked? then l.(phase := Gone)
      else if name && verdict.BadName? then l.(phase := Stopped(false, Free))
      else if name && verdict.NeedsQuery? then l.(phase := Asking(out[off..]), query := Some(Query(false, target)))
      else Dialling(l, target, out[off..], dial, fastOpen)
  }

  // ---------------------------------------------------------------- the callbacks

  /** A chunk from the client, decrypted behind all chunks before it. */
  ghost function FromClient(cfg: Config, d0: CipherCtx, l: Link, e: Event): Link
    requires e.ServerRecv? && e.recv.Data?
  {
    var result := cfg.dec(Ciphered(cfg.dec, d0, l.io.fromClient).0, e.recv.bytes).result;
    var l1 := l.(io := l.io.(fromClient := l.io.fromClient + [e.recv.bytes]));
    match l.phase
    case Stopped(remote, down) => l.(phase := Stopped(remote, Spoilt(down, e.recv.bytes)))
    case Relaying(_, down) =>
      (match result
       case CryptoError => l1.(phase := Stopped(true, down))
       case CryptoNeedMore => l1
       case CryptoOk(out) =>
         match Take(out, 0, e.send)
         case Broken => l1.(phase := Gone)
         case Took(sent, lane) =>
           l1.(phase := Relaying(lane, down), io := l1.io.(toRemote := l.io.toRemote + sent)))
    case Reading(n) =>
      (match result
       case CryptoError => l1.(phase := Stopped(false, Free))
       case CryptoNeedMore => l1.(phase := if n > cfg.maxFrag then Stopped(false, Free) else Reading(n + 1))
       case CryptoOk(out) => Opening(cfg, l1, out, e.verdict, e.dial, e.fastOpen))
    case _ => l
  }

  /** A chunk from the remote. */
  function FromRemote(cfg: Config, e0: CipherCtx, l: Link, bytes: Bytes, send: Send): Link {
    var result := cfg.enc(Ciphered(cfg.enc, e0, l.io.fromRemote).0, bytes).result;
    var l1 := l.(io := l.io.(fromRemote := l.io.fromRemote + [bytes]));
    match l.phase
    case Relaying(up, _) =>
      if !result.CryptoOk? then l1.(phase := Gone)
      else
        (match Take(result.out, 0, send)
         case Broken => l1.(phase := Gone)
         case Took(sent, lane) => l1.(phase := Relaying(up, lane), io := l1.io.(toClient := l.io.toClient + sent)))
    case Orphaned(_) => l.(phase := Gone)
    case _ => l
  }

  /** The client's socket is writable. */
  function ToClient(l: Link, send: Send): Link {
    var lane := match l.phase case Relaying(_, down) => down case Stopped(_, down) => down case _ => Free;
    if lane.Free? then l
    else
      match Resume(lane.rest, lane.gone, send)
      case Broken => l.(phase := Gone)
      case Took(sent, left) =>
        l.(phase := if l.phase.Relaying? then Relaying(l.phase.up, left) else Stopped(true, left),
           io := l.io.(toClient := l.io.toClient + sent))
  }

  /** The remote's socket is writable; the first time that says the connect is over. */
  function ToRemote(l: Link, peerOk: bool, send: Send): Link {
    match l.phase
    case Connecting(confirmed, rest, gone) =>
      if !confirmed && !peerOk then l.(phase := Gone)
      else if !confirmed && rest == [] then l.(phase := Relaying(Free, Free))
      else
        (match Resume(rest, gone, send)
         case Broken => l.(phase := Gone)
         case Took(sent, lane) =>
           l.(phase := if lane.Free? then Relaying(Free, Free) else Connecting(true, lane.rest, lane.gone),
              io := l.io.(toRemote := l.io.toRemote + sent)))
    case Relaying(Waiting(rest, gone), down) =>
      (match Resume(rest, gone, send)
       case Broken => l.(phase := Gone)
       case Took(sent, lane) =>
         l.(phase := Relaying(lane, down), io := l.io.(toRemote := l.io.toRemote + sent)))
    case _ => l
  }

  function Answered(l: Link, e: Event): Link
    requires e.Resolved? && l.query.Some?
  {
    var l1 := l.(query := Some(l.query.value.(answered := true)));
    match l.phase
    case Asking(payload) =>
      if e.found then Dialling(l1, l.query.value.target, payload, e.dial, e.fastOpen) else l1.(phase := Gone)
    case _ => l1
  }

  /** Which callbacks may fire: a side is read while the other can take what it sends. */
  predicate Ready(cfg: Config, l: Link, e: Event) {
    match e
    case ServerRecv(recv, _, _, _, _) =>
      RecvFits(cfg, recv) && (l.phase.Reading? || l.phase.Stopped? || (l.phase.Relaying? && l.phase.up.Free?))
    case ServerSend(_) => (l.phase.Relaying? || l.phase.Stopped?) && l.phase.down.Waiting?
    case Timeout => !l.phase.Gone? && !l.phase.Orphaned?
    case RemoteRecv(recv, _) =>
      && RecvFits(cfg, recv)
      && ((l.phase.Relaying? && l.phase.down.Free?) || (l.phase.Stopped? && l.phase.remote && l.phase.down.Free?)
          || (l.phase.Orphaned? && l.phase.readable))
    case RemoteSend(_, _) => l.phase.Connecting? || (l.phase.Relaying? && l.phase.up.Waiting?)
    case Resolved(_, _, _) => l.query.Some? && !l.query.value.answered
    case ResolvFree => l.query.Some? && l.query.value.answered
  }

  ghost function Next(cfg: Config, e0: CipherCtx, d0: CipherCtx, l: Link, e: Event): Link
    requires Ready(cfg, l, e)
  {
    match e
    case ServerRecv(recv, _, _, _, _) =>
      (match recv
       case RecvAgain => l
       case Data(_) => FromClient(cfg, d0, l, e)
       case _ =>
         l.(phase := if l.phase.Stopped? && l.phase.remote then Orphaned(l.phase.down.Free?) else Gone))
    case ServerSend(send) => ToClient(l, send)
    case Timeout => l.(phase := Gone)
    case RemoteRecv(recv, send) =>
      (match recv
       case RecvAgain => if l.phase.Orphaned? then l.(phase := Gone) else l
       case Data(bytes) => FromRemote(cfg, e0, l, bytes, send)
       case _ => l.(phase := Gone))
    case RemoteSend(peerOk, send) => ToRemote(l, peerOk, send)
    case Resolved(_, _, _) => Answered(l, e)
    case ResolvFree => l.(query := None)
  }

  const FRESH: Link := Link(Reading(0), None, QUIET)

  // ---------------------------------------------------------------- what the machine shows

  function UpLane(r: Remote): Lane {
    if r.sendIo then Waiting(r.buf.Window(), r.buf.idx) else Free
  }

  function DownLane(s: Server): Lane {
    if s.sendIo then Waiting(s.buf.Window(), s.buf.idx) else Free
  }

  function PhaseOf(server: Option<Server>, remote: Option<Remote>): Phase {
    match (server, remote)
    case (None, None) => Gone
    case (None, Some(r)) => Orphaned(r.recvIo)
    case (Some(s), _) =>
      if s.stage == Stop then Stopped(remote.Some?, DownLane(s))
      else if s.stage == Stream && remote.Some? then Relaying(UpLane(remote.value), DownLane(s))
      else if remote.Some? then Connecting(remote.value.connected, remote.value.buf.Window(), remote.value.buf.idx)
      else if s.stage == Init then Reading(s.frag)
      else Asking(s.buf.Window())
  }

  function View(c: Conn): Link {
    Link(PhaseOf(c.server, c.remote), c.query, c.io)
  }

  // ---------------------------------------------------------------- refinement

  /** The same callbacks can fire. */
  lemma EnabledExact(cfg: Config, c: Conn, e: Event)
    requires Watchers(c)
    ensures Enabled(cfg, c, e) <==> Ready(cfg, View(c), e)
  {
  }

  /** Taking n bytes off a window takes them off the front of its bytes. */
  lemma WindowTake(b: Buffer, n: nat)
    requires b.InBounds() && n <= b.len
    ensures Slice(b.data, b.idx, n) == b.Window()[..n]
    ensures b.(idx := b.idx + n, len := b.len - n).Window() == b.Window()[n..]
  {
  }

  lemma SendUpRefines(c: Conn, out: Bytes, send: Send)
    requires c.server.Some? && c.server.value.stage == Stream && c.remote.Some? && !c.remote.value.sendIo
    requires out <= c.remote.value.buf.data && c.remote.value.buf.len == |out|
    ensures var l, l' := View(c), View(SendUp(c, send));
            match Take(out, 0, send)
            case Broken => l' == l.(phase := Gone)
            case Took(sent, lane) =>
              l' == l.(phase := Relaying(lane, l.phase.down), io := l.io.(toRemote := l.io.toRemote + sent))
  {
    var b := c.remote.value.buf.(idx := 0);
    FreshWindow(b, out);
    WindowTake(b, if send.Sent? then Min(send.n, b.len) else 0);
  }

  lemma StreamRefines(cfg: Config, e0: CipherCtx, d0: CipherCtx, c: Conn, e: Event)
    requires Watchers(c) && Streams(cfg, e0, d0, c) && Enabled(cfg, c, e) && e.ServerRecv? && e.recv.Data?
    requires c.server.value.stage == Stream
    ensures View(Step(cfg, c, e)) == FromClient(cfg, d0, View(c), e)
  {
    var (c2, result) := IntoRemote(cfg, c, e.recv.bytes);
    if result.CryptoOk? {
      SendUpRefines(c2, result.out, e.send);
    }
  }

  /** The hand-over starts a queue at the front of the remote's buffer. */
  lemma HandOverFront(b: Buffer, cap: nat)
    requires b.InBounds()
    ensures var theirs := HandOver(b, BlankBuffer(cap)).1; theirs.Window() == b.Window() && theirs.idx == 0
  {
    HandOverKeeps(b, BlankBuffer(cap));
  }

  /** Fast open and the hand-over split the payload. */
  lemma ConnectRefines(cfg: Config, c: Conn, target: Target, dial: Dial, fastOpen: bool)
    requires c.server.Some? && c.remote.None? && c.server.value.buf.InBounds()
    requires c.server.value.stage == Init || c.server.value.stage == Resolve
    requires DialOk(dial, fastOpen)
    ensures View(Linked(cfg, Launched(c, target, dial, fastOpen)))
            == Dialling(View(c), target, c.server.value.buf.Window(), dial, fastOpen)
  {
    var b := c.server.value.buf;
    var n := FastOpenSent(dial, fastOpen, b.len);
    WindowTake(b, n);
    HandOverFront(b.(idx := b.idx + n, len := b.len - n), cfg.cap);
  }

  /** Dialling with the payload in server->buf. */
  lemma DialledRefines(cfg: Config, c: Conn, target: Target, dial: Dial, fastOpen: bool)
    requires c.server.Some? && c.remote.None? && c.server.value.buf.InBounds()
    requires c.server.value.stage == Init || c.server.value.stage == Resolve
    ensures View(Dialled(cfg, c, target, dial, fastOpen))
            == Dialling(View(c), target, c.server.value.buf.Window(), dial, fastOpen)
  {
    if DialOk(dial, fastOpen) {
      ConnectRefines(cfg, c, target, dial, fastOpen);
    }
  }

  lemma HandshakeRefines(cfg: Config, c: Conn, out: Bytes, verdict: HostVerdict, dial: Dial, fastOpen: bool)
    requires Watchers(c) && c.server.Some? && c.server.value.stage == Init && c.remote.None?
    requires var b := c.server.value.buf; b.len == |out| <= |b.data| && b.data[..b.len] == out
    ensures var b := c.server.value.buf;
            View(Handshake(cfg, c, Parse(cfg.mask, b.data, b.len), verdict, dial, fastOpen))
            == Opening(cfg, View(c), out, verdict, dial, fastOpen)
  {
    var b := c.server.value.buf;
    var p := Parse(cfg.mask, b.data, b.len);
    HeaderFound(cfg.mask, b, out);
    if p.Parsed? {
      HeaderCut(b, p.offset);
      EstablishedRefines(cfg, HeaderOff(c, p), Target(p.address, p.port), out[p.offset..],
                         p.address.Domain? && verdict.NeedsQuery?, dial, fastOpen);
    }
  }

  /** The parser finds the header there is. */
  lemma HeaderFound(mask: bv8, b: Buffer, out: Bytes)
    requires 2 <= |b.data| && b.len == |out| <= |b.data| && b.data[..b.len] == out
    ensures var p := Parse(mask, b.data, b.len);
            if p.Parsed? then HasHeader(mask, out) && HeaderOf(mask, out) == (Target(p.address, p.port), p.offset)
            else !HasHeader(mask, out)
  {
    var p := Parse(mask, b.data, b.len);
    if p.Parsed? {
      ParseSound(mask, b.data, b.len);
    }
    if HasHeader(mask, out) {
      var (target, off) := HeaderOf(mask, out);
      ParseComplete(mask, b.data, b.len, target.address, target.port, off);
    }
  }

  lemma EstablishedRefines(cfg: Config, c: Conn, target: Target, payload: Bytes, needQuery: bool, dial: Dial,
                           fastOpen: bool)
    requires Watchers(c) && c.server.Some? && c.server.value.stage == Init && c.remote.None?
    requires c.server.value.buf.InBounds() && c.server.value.buf.Window() == payload
    ensures View(Established(cfg, c, target, needQuery, dial, fastOpen))
            == if needQuery then View(c).(phase := Asking(payload), query := Some(Query(false, target)))
               else Dialling(View(c), target, payload, dial, fastOpen)
  {
    if !needQuery {
      DialledRefines(cfg, c, target, dial, fastOpen);
    }
  }

  lemma FirstRefines(cfg: Config, e0: CipherCtx, d0: CipherCtx, c: Conn, e: Event)
    requires Inv(cfg, e0, d0, c) && Enabled(cfg, c, e) && e.ServerRecv? && e.recv.Data?
    requires c.server.value.stage == Init
    ensures View(Step(cfg, c, e)) == FromClient(cfg, d0, View(c), e)
  {
    var (c2, result) := IntoServer(cfg, c, e.recv.bytes);
    DecryptedControl(cfg, c, e.recv.bytes, c.server.value.buf);
    DecryptedFront(cfg, c, e.recv.bytes, c.server.value.buf);
    if result.CryptoOk? {
      HandshakeRefines(cfg, c2, result.out, e.verdict, e.dial, e.fastOpen);
    }
  }

  /** A chunk read into the buffer of a waiting one. */
  lemma WriteSpoils(b: Buffer, bytes: Bytes)
    requires b.InBounds()
    ensures Waiting(b.Write(bytes).Window(), b.idx) == Spoilt(Waiting(b.Window(), b.idx), bytes)
  {
    var r := Spoilt(Waiting(b.Window(), b.idx), bytes).rest;
    var w := b.Write(bytes).Window();
    forall i | 0 <= i < b.len
      ensures w[i] == r[i]
    {
      assert b.Write(bytes).data[b.idx + i] == if b.idx + i < |bytes| then bytes[b.idx + i] else b.data[b.idx + i];
    }
    assert w == r;
  }

  lemma ChunkRefines(cfg: Config, e0: CipherCtx, d0: CipherCtx, c: Conn, e: Event)
    requires Inv(cfg, e0, d0, c) && Enabled(cfg, c, e) && e.ServerRecv? && e.recv.Data?
    ensures View(Step(cfg, c, e)) == FromClient(cfg, d0, View(c), e)
  {
    match c.server.value.stage {
      case Init => FirstRefines(cfg, e0, d0, c, e);
      case Stream => StreamRefines(cfg, e0, d0, c, e);
      case Stop =>
        if c.server.value.sendIo {
          WriteSpoils(c.server.value.buf, e.recv.bytes);
        }
      case Resolve =>
    }
  }

  lemma ServerRecvRefines(cfg: Config, e0: CipherCtx, d0: CipherCtx, c: Conn, e: Event)
    requires Inv(cfg, e0, d0, c) && Enabled(cfg, c, e) && e.ServerRecv? && Ready(cfg, View(c), e)
    ensures View(Step(cfg, c, e)) == Next(cfg, e0, d0, View(c), e)
  {
    if e.recv.Data? {
      ChunkRefines(cfg, e0, d0, c, e);
    }
  }

  lemma SendDownRefines(c: Conn, out: Bytes, send: Send)
    requires c.server.Some? && c.server.value.stage == Stream && c.remote.Some? && !c.server.value.sendIo
    requires out <= c.server.value.buf.data && c.server.value.buf.len == |out|
    ensures var l, l' := View(c), View(SendDown(c, send));
            match Take(out, 0, send)
            case Broken => l' == l.(phase := Gone)
            case Took(sent, lane) =>
              l' == l.(phase := Relaying(l.phase.up, lane), io := l.io.(toClient := l.io.toClient + sent))
  {
    var b := c.server.value.buf.(idx := 0);
    FreshWindow(b, out);
    WindowTake(b, if send.Sent? then Min(send.n, b.len) else 0);
  }

  lemma RemoteDataRefines(cfg: Config, e0: CipherCtx, d0: CipherCtx, c: Conn, bytes: Bytes, send: Send)
    requires Streams(cfg, e0, d0, c) && c.server.Some? && c.remote.Some?
    requires c.server.value.stage == Stream && !c.server.value.sendIo
    ensures View(RemoteData(cfg, c, bytes, send)) == FromRemote(cfg, e0, View(c), bytes, send)
  {
    var result := cfg.enc(c.server.value.eCtx, bytes).result;
    if result.CryptoOk? {
      var c1 := Encrypted(cfg, c, bytes);
      SendDownRefines(c1, result.out, send);
      RespondedShows(cfg, SendDown(c1, send));
    }
  }

  /** The socket option is no part of the view. */
  lemma RespondedShows(cfg: Config, c: Conn)
    ensures View(Responded(cfg, c)) == View(c)
  {
  }

  lemma RemoteRecvRefines(cfg: Config, e0: CipherCtx, d0: CipherCtx, c: Conn, e: Event)
    requires Watchers(c) && Streams(cfg, e0, d0, c) && Enabled(cfg, c, e) && e.RemoteRecv? && Ready(cfg, View(c), e)
    ensures View(Step(cfg, c, e)) == Next(cfg, e0, d0, View(c), e)
  {
    if e.recv.Data? && c.server.Some? && c.server.value.stage != Stop {
      RemoteDataRefines(cfg, e0, d0, c, e.recv.bytes, e.send);
    }
  }

  lemma ServerSendRefines(c: Conn, send: Send)
    requires Watchers(c) && Downstream(c) && c.server.Some? && c.server.value.sendIo
    ensures View(OnServerSend(c, send)) == ToClient(View(c), send)
  {
    var b := c.server.value.buf;
    WindowTake(b, if send.Sent? then Min(send.n, b.len) else 0);
  }

  lemma FlushRefines(c: Conn, send: Send)
    requires c.server.Some? && c.server.value.stage != Stop && c.remote.Some? && c.remote.value.sendIo
    requires c.remote.value.connected && c.remote.value.buf.InBounds()
    requires c.server.value.stage != Stream ==> !c.server.value.sendIo
    ensures View(FlushRemote(c, send)) == ToRemote(View(c), true, send)
  {
    var b := c.remote.value.buf;
    WindowTake(b, if send.Sent? then Min(send.n, b.len) else 0);
  }

  lemma RemoteSendRefines(c: Conn, peerOk: bool, send: Send)
    requires Watchers(c) && Upstream(c) && c.remote.Some? && c.remote.value.sendIo
    ensures View(OnRemoteSend(c, peerOk, send)) == ToRemote(View(c), peerOk, send)
  {
    var r := c.remote.value;
    var c1 := c.(remote := Some(r.(connected := true)));
    if r.connected || (peerOk && r.buf.len != 0) {
      assert r.connected ==> c1 == c;
      FlushRefines(c1, send);
    }
  }

  lemma ResolvedRefines(cfg: Config, e0: CipherCtx, d0: CipherCtx, c: Conn, e: Event)
    requires Inv(cfg, e0, d0, c) && Enabled(cfg, c, e) && e.Resolved? && Ready(cfg, View(c), e)
    ensures View(Step(cfg, c, e)) == Next(cfg, e0, d0, View(c), e)
  {
    var q := c.query.value;
    if c.server.Some? && e.found {
      DialledRefines(cfg, c.(query := Some(q.(answered := true))), q.target, e.dial, e.fastOpen);
    }
  }

  /** Every callback does to the queues what it should, whatever the outcome. */
  lemma StepRefines(cfg: Config, e0: CipherCtx, d0: CipherCtx, c: Conn, e: Event)
    requires Inv(cfg, e0, d0, c) && Enabled(cfg, c, e)
    ensures Ready(cfg, View(c), e) && View(Step(cfg, c, e)) == Next(cfg, e0, d0, View(c), e)
  {
    EnabledExact(cfg, c, e);
    match e {
      case ServerRecv(_, _, _, _, _) => ServerRecvRefines(cfg, e0, d0, c, e);
      case ServerSend(send) => ServerSendRefines(c, send);
      case RemoteRecv(_, _) => RemoteRecvRefines(cfg, e0, d0, c, e);
      case RemoteSend(peerOk, send) => RemoteSendRefines(c, peerOk, send);
      case Resolved(_, _, _) => ResolvedRefines(cfg, e0, d0, c, e);
      case _ =>
    }
  }

  /** Runs of the queues. */
  ghost predicate Possible(cfg: Config, e0: CipherCtx, d0: CipherCtx, l: Link, es: seq<Event>)
    decreases |es|
  {
    es == [] || (Ready(cfg, l, es[0]) && Possible(cfg, e0, d0, Next(cfg, e0, d0, l, es[0]), es[1..]))
  }

  ghost function Finally(cfg: Config, e0: CipherCtx, d0: CipherCtx, l: Link, es: seq<Event>): Link
    requires Possible(cfg, e0, d0, l, es)
    decreases |es|
  {
    if es == [] then l else Finally(cfg, e0, d0, Next(cfg, e0, d0, l, es[0]), es[1..])
  }

  lemma {:induction false} RunRefinesFrom(cfg: Config, e0: CipherCtx, d0: CipherCtx, c: Conn, es: seq<Event>)
    requires Inv(cfg, e0, d0, c)
    ensures Legal(cfg, c, es) <==> Possible(cfg, e0, d0, View(c), es)
    ensures Legal(cfg, c, es) ==> View(Run(cfg, c, es)) == Finally(cfg, e0, d0, View(c), es)
    decreases |es|
  {
    if es != [] {
      EnabledExact(cfg, c, es[0]);
      if Enabled(cfg, c, es[0]) {
        StepRefines(cfg, e0, d0, c, es[0]);
        StepKeepsInv(cfg, e0, d0, c, es[0]);
        RunRefinesFrom(cfg, e0, d0, Step(cfg, c, es[0]), es[1..]);
      }
    }
  }

  /** The relay is the two queues: from accept_cb on, exactly the same sequences of events
      can happen, and each leaves the same phase, queues, query and traffic. */
  lemma RunRefines(cfg: Config, e0: CipherCtx, d0: CipherCtx, es: seq<Event>)
    requires 2 <= cfg.cap
    ensures var c := Accepted(cfg, e0, d0);
            && (Legal(cfg, c, es) <==> Possible(cfg, e0, d0, FRESH, es))
            && (Legal(cfg, c, es) ==> View(Run(cfg, c, es)) == Finally(cfg, e0, d0, FRESH, es))
  {
    AcceptedInv(cfg, e0, d0);
    RunRefinesFrom(cfg, e0, d0, Accepted(cfg, e0, d0), es);
  }
}
