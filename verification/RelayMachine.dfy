/** One relayed connection of shadowsocks_server.c as a state machine: what each
    event-loop callback does to the client side (server_t), the upstream side
    (remote_t) and the outstanding name query (query_t), for every result the
    kernel, the resolver and the cipher may return.

    Pointers, the list of connections and the global counters are in RelayHeap,
    whose callbacks are proved to perform exactly these steps. */
module RelayMachine {
  import opened Octets
  import opened RelayHeader

  // ---------------------------------------------------------------- cipher

  /** The memory of a cipher context. */
  type CipherCtx = Bytes

  datatype CryptoResult = CryptoOk(out: Bytes) | CryptoNeedMore | CryptoError
  datatype CryptoStep = CryptoStep(ctx: CipherCtx, result: CryptoResult)

  /** An arbitrary stateful cipher: each chunk changes the context and yields bytes. */
  type Cipher = (CipherCtx, Bytes) -> CryptoStep

  /** SOCKET_BUF_SIZE, ADDRTYPE_MASK, MAX_FRAG, no_delay and the two directions of
      `crypto`. */
  datatype Config = Config(cap: nat, mask: bv8, maxFrag: nat, noDelay: bool, enc: Cipher, dec: Cipher)

  // ---------------------------------------------------------------- buffers

  /** buffer_t: `idx` and `len` delimit a window of `data`. */
  datatype Buffer = Buffer(data: Bytes, idx: nat, len: nat)
  {
    function Window(): Bytes {
      Slice(data, idx, len)
    }

    predicate InBounds() {
      idx + len <= |data|
    }

    /** recv() and the cipher write from the start of the buffer. */
    function Write(bytes: Bytes): Buffer {
      this.(data := Overwrite(data, bytes))
    }
  }

  function Slice(data: Bytes, from: nat, n: nat): (r: Bytes)
    ensures from + n <= |data| ==> r == data[from..from + n]
  {
    if from + n <= |data| then data[from..from + n] else []
  }

  /** Bytes behind the written ones keep their old value; a longer output
      reallocates the buffer. */
  function Overwrite(data: Bytes, bytes: Bytes): (r: Bytes)
    ensures bytes <= r && |data| <= |r|
  {
    if |bytes| <= |data| then bytes + data[|bytes|..] else bytes
  }

  function BlankBuffer(cap: nat): Buffer {
    Buffer(seq(cap, _ => 0), 0, 0)
  }

  function Min(a: nat, b: nat): nat {
    if a < b then a else b
  }

  // ---------------------------------------------------------------- state

  datatype Stage = Init | Resolve | Stream | Stop

  function Rank(s: Stage): nat {
    match s case Init => 0 case Resolve => 1 case Stream => 2 case Stop => 3
  }

  /** server_t. `recvIo`, `sendIo` and `timer` say which watchers are active. */
  datatype Server = Server(stage: Stage, recvIo: bool, sendIo: bool, timer: bool, frag: nat,
                           buf: Buffer, eCtx: CipherCtx, dCtx: CipherCtx)

  /** remote_t. `connected` is send_ctx->connected, `replied` recv_ctx->connected;
      `prompt` says whether TCP_NODELAY is on for the two sockets. */
  datatype Remote = Remote(recvIo: bool, sendIo: bool, connected: bool, replied: bool, prompt: bool, buf: Buffer)

  /** Where a connection is to go: an address, or a name for the resolver. */
  datatype Target = Target(address: Address, port: nat)

  /** query_t, and what resolv_start was asked for; `answered` records that the
      resolver has called resolv_cb. */
  datatype Query = Query(answered: bool, target: Target)

  /** What crossed the sockets of one connection: the chunks handed to the cipher, the
      bytes the kernel accepted, and the connects attempted. */
  datatype Io = Io(fromClient: seq<Bytes>, toRemote: Bytes, fromRemote: seq<Bytes>, toClient: Bytes,
                   dialled: seq<Target>)

  /** Nothing yet. */
  const QUIET: Io := Io([], [], [], [], [])

  /** Branches the source treats as impossible or as an error of its own. */
  datatype Fault = FatalContext | NullRemote | InvalidServer | EmptySend

  /** What a proof needs to remember about a run: the decrypted and the encrypted
      stream, the accepted header, whether the kernel ever refused a send of zero
      bytes, whether stop_server ran, and the faulty branches taken. */
  datatype Note = Note(plain: Bytes, sealed: Bytes, header: Option<ParseResult>,
                       zeroBlocked: bool, stopped: bool, faults: set<Fault>)

  /** A connection. A part that is None is not allocated, or already freed. */
  datatype Conn = Conn(server: Option<Server>, remote: Option<Remote>, query: Option<Query>, io: Io, note: Note)

  /** accept_cb and new_server, with the contexts ctx_init chose. */
  function Accepted(cfg: Config, eCtx: CipherCtx, dCtx: CipherCtx): Conn {
    Conn(Some(Server(Init, true, false, true, 0, BlankBuffer(cfg.cap), eCtx, dCtx)), None, None,
         QUIET, Note([], [], None, false, false, {}))
  }

  // ---------------------------------------------------------------- events

  datatype Recv = Closed | RecvAgain | RecvError | Data(bytes: Bytes)

  /** A send() of k bytes accepts `Min(n, k)` of them, or fails. */
  datatype Send = Sent(n: nat) | SendAgain | SendError

  /** What ACL, cork_ip_init and validate_hostname say about a domain name. */
  datatype HostVerdict = Blocked | Literal | BadName | NeedsQuery

  datatype FastOpen = FoSent(n: nat) | FoInProgress | FoUnsupported | FoError

  /** Everything connect_to_remote depends on: ACL and socket creation, the
      fast-open attempt, and the ordinary connect. */
  datatype Dial = Dial(socketOk: bool, fo: FastOpen, connectOk: bool)

  datatype Event =
    | ServerRecv(recv: Recv, verdict: HostVerdict, dial: Dial, send: Send, fastOpen: bool)
    | ServerSend(send: Send)
    | Timeout
    | RemoteRecv(recv: Recv, send: Send)
    | RemoteSend(peerOk: bool, send: Send)
    | Resolved(found: bool, dial: Dial, fastOpen: bool)
    | ResolvFree

  predicate RecvFits(cfg: Config, recv: Recv) {
    recv.Data? ==> 0 < |recv.bytes| <= cfg.cap
  }

  /** A callback runs only while its watcher is active (stopping a watcher clears
      its pending event). The resolver answers a query once and then frees it. */
  predicate Enabled(cfg: Config, c: Conn, e: Event) {
    match e
    case ServerRecv(recv, _, _, _, _) =>
      c.server.Some? && c.server.value.recvIo && 2 <= |c.server.value.buf.data| && RecvFits(cfg, recv)
    case ServerSend(_) => c.server.Some? && c.server.value.sendIo
    case Timeout => c.server.Some? && c.server.value.timer
    case RemoteRecv(recv, _) => c.remote.Some? && c.remote.value.recvIo && RecvFits(cfg, recv)
    case RemoteSend(_, _) => c.remote.Some? && c.remote.value.sendIo
    case Resolved(_, _, _) => c.query.Some? && !c.query.value.answered
    case ResolvFree => c.query.Some? && c.query.value.answered
  }

  // ---------------------------------------------------------------- closing

  /** close_and_free_server; the query, if any, survives with a null server. */
  function CloseServer(c: Conn): Conn {
    c.(server := None)
  }

  /** close_and_free_remote then close_and_free_server. */
  function CloseBoth(c: Conn): Conn {
    c.(server := None, remote := None)
  }

  /** stop_server. */
  function StopServer(c: Conn): Conn
    requires c.server.Some?
  {
    c.(server := Some(c.server.value.(stage := Stop)), note := c.note.(stopped := true))
  }

  function WithFault(c: Conn, f: Fault): Conn {
    c.(note := c.note.(faults := c.note.faults + {f}))
  }

  // ---------------------------------------------------------------- connect_to_remote

  function FastOpenAfter(dial: Dial, fastOpen: bool): bool {
    fastOpen && !(dial.socketOk && dial.fo.FoUnsupported?)
  }

  predicate DialOk(dial: Dial, fastOpen: bool) {
    dial.socketOk && (FastOpenAfter(dial, fastOpen) || dial.connectOk)
  }

  function FastOpenSent(dial: Dial, fastOpen: bool, len: nat): nat {
    if fastOpen && dial.fo.FoSent? then Min(dial.fo.n, len) else 0
  }

  /** What is left of the first payload moves to the front of the remote's buffer.
      An empty payload leaves server->buf->idx where the header ended. */
  function HandOver(b: Buffer, theirs: Buffer): (Buffer, Buffer) {
    if b.len > 0 then (b.(idx := 0, len := 0), theirs.Write(b.Window()).(idx := 0, len := b.len)) else (b, theirs)
  }

  /** The remote new_remote allocates on a fresh socket with TCP_NODELAY. */
  function NewRemote(cfg: Config): Remote {
    Remote(false, false, false, false, true, BlankBuffer(cfg.cap))
  }

  /** connect_to_remote when it succeeds: what fast open sent has left server->buf. */
  function Launched(c: Conn, target: Target, dial: Dial, fastOpen: bool): (d: Conn)
    requires c.server.Some?
    ensures d.server.Some?
  {
    var b := c.server.value.buf;
    var n := FastOpenSent(dial, fastOpen, b.len);
    c.(server := Some(c.server.value.(buf := b.(idx := b.idx + n, len := b.len - n))),
       io := c.io.(dialled := c.io.dialled + [target], toRemote := c.io.toRemote + Slice(b.data, b.idx, n)))
  }

  /** 932-948, 1087-1102: the new remote takes what is left of the payload. */
  function Linked(cfg: Config, c: Conn): Conn
    requires c.server.Some?
  {
    var (mine, theirs) := HandOver(c.server.value.buf, BlankBuffer(cfg.cap));
    c.(server := Some(c.server.value.(buf := mine)), remote := Some(NewRemote(cfg).(sendIo := true, buf := theirs)))
  }

  /** connect_to_remote when it fails, before or after it has a socket. */
  function Refused(c: Conn, target: Target, dial: Dial): Conn {
    c.(io := c.io.(dialled := c.io.dialled + (if dial.socketOk then [target] else [])))
  }

  /** connect_to_remote and the hand-over of the first payload (924-949, 1082-1102). */
  function Dialled(cfg: Config, c: Conn, target: Target, dial: Dial, fastOpen: bool): Conn
    requires c.server.Some?
  {
    if DialOk(dial, fastOpen) then Linked(cfg, Launched(c, target, dial, fastOpen))
    else CloseServer(Refused(c, target, dial))
  }

  // ---------------------------------------------------------------- server_recv_cb

  /** Decrypt one chunk into `b`: the new buffer, and the connection with the
      context and the streams updated. Neither error changes b.len again. */
  function Decrypted(cfg: Config, c: Conn, bytes: Bytes, b: Buffer): (r: (Conn, Buffer, CryptoResult))
    requires c.server.Some?
    ensures r.0.server.Some?
  {
    var step := cfg.dec(c.server.value.dCtx, bytes);
    var c1 := c.(server := Some(c.server.value.(dCtx := step.ctx)),
                 io := c.io.(fromClient := c.io.fromClient + [bytes]));
    var b1 := b.Write(bytes).(len := |bytes|);
    match step.result
    case CryptoOk(out) =>
      (c1.(note := c1.note.(plain := c1.note.plain + out)), b1.Write(out).(len := |out|), step.result)
    case _ => (c1, b1, step.result)
  }

  /** 765-782: send the chunk at the start of remote->buf, keeping what the kernel
      did not take. A chunk sent in full does not zero remote->buf->len. */
  function SendUp(c: Conn, send: Send): Conn
    requires c.server.Some? && c.remote.Some?
  {
    var s, r := c.server.value, c.remote.value;
    var b := r.buf;
    match send
    case SendError => CloseBoth(c)
    case SendAgain =>
      c.(server := Some(s.(recvIo := false)),
         remote := Some(r.(sendIo := true, buf := b.(idx := 0))),
         note := c.note.(zeroBlocked := c.note.zeroBlocked || b.len == 0))
    case Sent(k) =>
      var n := Min(k, b.len);
      var io := c.io.(toRemote := c.io.toRemote + Slice(b.data, 0, n));
      if n < b.len then
        c.(server := Some(s.(recvIo := false)),
           remote := Some(r.(sendIo := true, buf := b.(idx := n, len := b.len - n))), io := io)
      else
        c.(io := io)
  }

  /** A chunk decrypted into remote->buf, in the stream stage. */
  function IntoRemote(cfg: Config, c: Conn, bytes: Bytes): (r: (Conn, CryptoResult))
    requires c.server.Some? && c.remote.Some?
    ensures r.0.server.Some? && r.0.remote.Some?
  {
    var (c1, b, result) := Decrypted(cfg, c, bytes, c.remote.value.buf);
    (c1.(remote := Some(c1.remote.value.(buf := b))), result)
  }

  /** A chunk decrypted into server->buf, before it. */
  function IntoServer(cfg: Config, c: Conn, bytes: Bytes): (r: (Conn, CryptoResult))
    requires c.server.Some?
    ensures r.0.server.Some?
  {
    var (c1, b, result) := Decrypted(cfg, c, bytes, c.server.value.buf);
    (c1.(server := Some(c1.server.value.(buf := b))), result)
  }

  /** 742-783 in the stream stage. */
  function StreamData(cfg: Config, c: Conn, bytes: Bytes, send: Send): Conn
    requires c.server.Some? && c.remote.Some?
  {
    var (c2, result) := IntoRemote(cfg, c, bytes);
    if result.CryptoError? then StopServer(c2)
    else if result.CryptoNeedMore? then c2
    else SendUp(c2, send)
  }

  /** 924-960: the header is off server->buf; dial now, or ask for the name first. */
  function Established(cfg: Config, c: Conn, target: Target, needQuery: bool, dial: Dial, fastOpen: bool): Conn
    requires c.server.Some?
  {
    if needQuery then
      c.(server := Some(c.server.value.(recvIo := false, stage := Resolve)), query := Some(Query(false, target)))
    else
      var d := Dialled(cfg, c, target, dial, fastOpen);
      if d.server.Some? then d.(server := Some(d.server.value.(recvIo := false))) else d
  }

  /** 784-961: the header decrypted into server->buf was parsed as `p`. */
  function Handshake(cfg: Config, c: Conn, p: ParseResult, verdict: HostVerdict, dial: Dial, fastOpen: bool): Conn
    requires c.server.Some? && (p.Parsed? ==> p.offset <= c.server.value.buf.len)
  {
    var s := c.server.value;
    if p.Reject? then StopServer(c)
    else if p.address.Domain? && verdict.Blocked? then CloseServer(c)
    else if p.address.Domain? && verdict.BadName? then StopServer(c)
    else
      var s1 := s.(buf := s.buf.(idx := p.offset, len := s.buf.len - p.offset));
      Established(cfg, c.(server := Some(s1), note := c.note.(header := Some(p))), Target(p.address, p.port),
                  p.address.Domain? && verdict.NeedsQuery?, dial, fastOpen)
  }

  /** 742-761 for a chunk read before the stream stage. */
  function FirstData(cfg: Config, c: Conn, bytes: Bytes, verdict: HostVerdict, dial: Dial, fastOpen: bool): Conn
    requires c.server.Some? && 2 <= |c.server.value.buf.data|
  {
    var (c2, result) := IntoServer(cfg, c, bytes);
    var s := c2.server.value;
    if result.CryptoError? then StopServer(c2)
    else if result.CryptoNeedMore? then
      if s.frag > cfg.maxFrag then StopServer(c2) else c2.(server := Some(s.(frag := s.frag + 1)))
    else if s.stage == Init then Handshake(cfg, c2, Parse(cfg.mask, s.buf.data, s.buf.len), verdict, dial, fastOpen)
    else WithFault(c2, FatalContext)
  }

  function OnServerRecv(cfg: Config, c: Conn, recv: Recv, verdict: HostVerdict, dial: Dial, send: Send,
                        fastOpen: bool): Conn
    requires c.server.Some? && 2 <= |c.server.value.buf.data|
  {
    var s := c.server.value;
    if s.stage == Stream && c.remote.None? then WithFault(c, NullRemote)
    else match recv
      case Closed => if s.stage == Stream then CloseBoth(c) else CloseServer(c)
      case RecvError => if s.stage == Stream then CloseBoth(c) else CloseServer(c)
      case RecvAgain => c
      case Data(bytes) =>
        if s.stage == Stop then c.(server := Some(s.(buf := s.buf.Write(bytes))))
        else if s.stage == Stream then StreamData(cfg, c, bytes, send)
        else FirstData(cfg, c, bytes, verdict, dial, fastOpen)
  }

  // ---------------------------------------------------------------- the other callbacks

  function OnServerSend(c: Conn, send: Send): Conn
    requires c.server.Some?
  {
    var s := c.server.value;
    if c.remote.None? then WithFault(CloseServer(c), InvalidServer)
    else if s.buf.len == 0 then WithFault(CloseBoth(c), EmptySend)
    else match send
      case SendError => CloseBoth(c)
      case SendAgain => c
      case Sent(k) =>
        var n := Min(k, s.buf.len);
        var io := c.io.(toClient := c.io.toClient + Slice(s.buf.data, s.buf.idx, n));
        if n < s.buf.len then
          c.(server := Some(s.(buf := s.buf.(idx := s.buf.idx + n, len := s.buf.len - n))), io := io)
        else
          c.(server := Some(s.(sendIo := false, buf := s.buf.(idx := 0, len := 0))),
             remote := Some(c.remote.value.(recvIo := true)), io := io)
  }

  /** 1162-1181: send the chunk at the start of server->buf, keeping what the
      kernel did not take. */
  function SendDown(c: Conn, send: Send): Conn
    requires c.server.Some? && c.remote.Some?
  {
    var s, r := c.server.value, c.remote.value;
    var b := s.buf;
    match send
    case SendError => CloseBoth(c)
    case SendAgain =>
      c.(server := Some(s.(sendIo := true, buf := b.(idx := 0))), remote := Some(r.(recvIo := false)),
         note := c.note.(zeroBlocked := c.note.zeroBlocked || b.len == 0))
    case Sent(k) =>
      var n := Min(k, b.len);
      var io := c.io.(toClient := c.io.toClient + Slice(b.data, 0, n));
      if n < b.len then
        c.(server := Some(s.(sendIo := true, buf := b.(idx := n, len := b.len - n))),
           remote := Some(r.(recvIo := false)), io := io)
      else
        c.(io := io)
  }

  /** 1183-1189, reached only if SendDown has not closed the connection: after the first
      response TCP_NODELAY goes off on both sockets, unless it was asked for. */
  function Responded(cfg: Config, c: Conn): Conn {
    if c.server.None? || c.remote.None? then c
    else
      var r := c.remote.value;
      c.(remote := Some(r.(replied := true, prompt := r.prompt && (r.replied || cfg.noDelay))))
  }

  /** 1149-1150: a chunk from the remote encrypted into server->buf. */
  function Encrypted(cfg: Config, c: Conn, bytes: Bytes): (r: Conn)
    requires c.server.Some?
    ensures r.server.Some? && r.remote == c.remote && r.query == c.query
  {
    var s := c.server.value;
    var step := cfg.enc(s.eCtx, bytes);
    var b := s.buf.Write(bytes);
    var io := c.io.(fromRemote := c.io.fromRemote + [bytes]);
    match step.result
    case CryptoOk(out) =>
      c.(server := Some(s.(eCtx := step.ctx, buf := b.Write(out).(len := |out|))), io := io,
         note := c.note.(sealed := c.note.sealed + out))
    case _ => c.(server := Some(s.(eCtx := step.ctx, buf := b.(len := |bytes|))), io := io)
  }

  /** 1142-1189: encrypt a chunk read from the remote and relay it. */
  function RemoteData(cfg: Config, c: Conn, bytes: Bytes, send: Send): Conn
    requires c.server.Some? && c.remote.Some?
  {
    var c1 := Encrypted(cfg, c, bytes);
    if cfg.enc(c.server.value.eCtx, bytes).result.CryptoOk? then Responded(cfg, SendDown(c1, send)) else CloseBoth(c1)
  }

  function OnRemoteRecv(cfg: Config, c: Conn, recv: Recv, send: Send): Conn
    requires c.remote.Some?
  {
    if c.server.None? then c.(remote := None)
    else match recv
      case Closed => CloseBoth(c)
      case RecvError => CloseBoth(c)
      case RecvAgain => c
      case Data(bytes) =>
        var s := c.server.value;
        if s.stage == Stop then c.(server := Some(s.(buf := s.buf.Write(bytes))))
        else RemoteData(cfg, c, bytes, send)
  }

  /** 1262-1302: the remote is connected and its writability was reported. */
  function FlushRemote(c: Conn, send: Send): Conn
    requires c.server.Some? && c.remote.Some?
  {
    var s, r := c.server.value, c.remote.value;
    if r.buf.len == 0 then WithFault(CloseBoth(c), EmptySend)
    else match send
      case SendError => CloseBoth(c)
      case SendAgain => c
      case Sent(k) =>
        var n := Min(k, r.buf.len);
        var io := c.io.(toRemote := c.io.toRemote + Slice(r.buf.data, r.buf.idx, n));
        if n < r.buf.len then
          c.(remote := Some(r.(buf := r.buf.(idx := r.buf.idx + n, len := r.buf.len - n))), io := io)
        else
          c.(server := Some(s.(recvIo := true, stage := Stream)),
             remote := Some(r.(sendIo := false, recvIo := r.recvIo || s.stage != Stream,
                               buf := r.buf.(idx := 0, len := 0))),
             io := io)
  }

  function OnRemoteSend(c: Conn, peerOk: bool, send: Send): Conn
    requires c.remote.Some?
  {
    var r := c.remote.value;
    if c.server.None? then WithFault(c.(remote := None), InvalidServer)
    else if r.connected then FlushRemote(c, send)
    else if !peerOk then CloseBoth(c)
    else if r.buf.len == 0 then
      c.(server := Some(c.server.value.(stage := Stream, recvIo := true)),
         remote := Some(r.(connected := true, sendIo := false, recvIo := true)))
    else FlushRemote(c.(remote := Some(r.(connected := true))), send)
  }

  function OnResolved(cfg: Config, c: Conn, found: bool, dial: Dial, fastOpen: bool): Conn
    requires c.query.Some?
  {
    var c1 := c.(query := Some(c.query.value.(answered := true)));
    if c.server.None? then c1
    else if !found then CloseServer(c1)
    else Dialled(cfg, c1, c.query.value.target, dial, fastOpen)
  }

  function Step(cfg: Config, c: Conn, e: Event): Conn
    requires Enabled(cfg, c, e)
  {
    match e
    case ServerRecv(recv, verdict, dial, send, fastOpen) => OnServerRecv(cfg, c, recv, verdict, dial, send, fastOpen)
    case ServerSend(send) => OnServerSend(c, send)
    case Timeout => CloseBoth(c)
    case RemoteRecv(recv, send) => OnRemoteRecv(cfg, c, recv, send)
    case RemoteSend(peerOk, send) => OnRemoteSend(c, peerOk, send)
    case Resolved(found, dial, fastOpen) => OnResolved(cfg, c, found, dial, fastOpen)
    case ResolvFree => c.(query := None)
  }

  // ---------------------------------------------------------------- runs

  /** Every event of `es`, fired in that order from `c`, finds its watcher active. */
  predicate Legal(cfg: Config, c: Conn, es: seq<Event>)
    decreases |es|
  {
    es == [] || (Enabled(cfg, c, es[0]) && Legal(cfg, Step(cfg, c, es[0]), es[1..]))
  }

  function Run(cfg: Config, c: Conn, es: seq<Event>): Conn
    requires Legal(cfg, c, es)
    decreases |es|
  {
    if es == [] then c else Run(cfg, Step(cfg, c, es[0]), es[1..])
  }
}
