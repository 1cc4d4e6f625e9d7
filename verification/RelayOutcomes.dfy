/** When exactly a callback stops, closes, connects, asks or starts to relay: what the queues
    of RelayQueues say about the states a run reaches. */
module RelayOutcomes {
  import opened Octets
  import opened RelayHeader
  import opened RelayMachine
  import opened RelayInvariant
  import opened RelayTheorems
  import opened RelayProgress
  import opened RelayQueues

  /** c' shows what the queues make of c. */
  ghost predicate Shows(cfg: Config, e0: CipherCtx, d0: CipherCtx, c: Conn, e: Event, c': Conn) {
    && Inv(cfg, e0, d0, c) && Watchers(c') && Ready(cfg, View(c), e)
    && View(c') == Next(cfg, e0, d0, View(c), e)
  }

  lemma StepShows(cfg: Config, e0: CipherCtx, d0: CipherCtx, es: seq<Event>, c: Conn, e: Event)
    requires Reached(cfg, e0, d0, es, c) && Enabled(cfg, c, e)
    ensures Shows(cfg, e0, d0, c, e, Step(cfg, c, e))
  {
    ReachedInv(cfg, e0, d0, es, c);
    ControlStep(cfg, c, e);
    StepRefines(cfg, e0, d0, c, e);
  }

  /** Taking bytes off the front. */
  lemma FrontAndRest(p: Bytes, n: nat)
    requires n <= |p|
    ensures [] + p[..n] == p[..n] && p[..n] + p[n..] == p
  {
  }

  // ---------------------------------------------------------------- chunks from the client

  /** While relaying, a chunk stops the relay iff it fails to decrypt. One that needs more
      bytes changes nothing but the cipher's context: the client is read for more. */
  lemma StreamStopsExactly(cfg: Config, e0: CipherCtx, d0: CipherCtx, es: seq<Event>, c: Conn, e: Event)
    requires Reached(cfg, e0, d0, es, c) && Enabled(cfg, c, e) && e.ServerRecv? && e.recv.Data?
    requires c.server.value.stage == Stream
    ensures var c', step := Step(cfg, c, e), cfg.dec(c.server.value.dCtx, e.recv.bytes);
            && (c'.note.stopped <==> step.result.CryptoError?)
            && (step.result.CryptoNeedMore? ==>
                  && c'.server == Some(c.server.value.(dCtx := step.ctx)) && c'.server.value.recvIo
                  && c'.remote.Some? && c'.remote.value.(buf := c.remote.value.buf) == c.remote.value
                  && View(c') == View(c).(io := c.io.(fromClient := c.io.fromClient + [e.recv.bytes])))
  {
    ReachedInv(cfg, e0, d0, es, c);
  }

  /** Before a header came, a chunk that needs more bytes stops the relay iff more than
      MAX_FRAG came before it; otherwise the client is read for more. */
  lemma FragmentStopsExactly(cfg: Config, e0: CipherCtx, d0: CipherCtx, es: seq<Event>, c: Conn, e: Event)
    requires Reached(cfg, e0, d0, es, c) && Enabled(cfg, c, e) && e.ServerRecv? && e.recv.Data?
    requires c.server.value.stage == Init
    requires cfg.dec(c.server.value.dCtx, e.recv.bytes).result.CryptoNeedMore?
    ensures var c' := Step(cfg, c, e);
            && (c'.note.stopped <==> |c.io.fromClient| > cfg.maxFrag)
            && c'.server.Some? && c'.server.value.recvIo && c'.remote.None? && c'.query.None?
            && (!c'.note.stopped ==> c'.server.value.stage == Init)
  {
    ReachedInv(cfg, e0, d0, es, c);
    FragmentsBounded(cfg, e0, d0, es, c);
  }

  // ---------------------------------------------------------------- connecting

  /** Both ends are there, the target was dialled, and the payload is sent or waiting. */
  predicate Underway(c: Conn, target: Target, payload: Bytes) {
    && c.server.Some? && c.remote.Some? && c.remote.value.sendIo && !c.server.value.recvIo
    && c.io.dialled == [target] && c.io.toRemote + PendingUp(c) == payload
  }

  predicate NoEnds(c: Conn) {
    c.server.None? && c.remote.None?
  }

  /** A dial that gets underway splits the payload. */
  lemma DiallingUnderway(l: Link, target: Target, payload: Bytes, dial: Dial, fastOpen: bool, c: Conn)
    requires Watchers(c) && View(c) == Dialling(l, target, payload, dial, fastOpen)
    requires l.io.dialled == [] && l.io.toRemote == []
    ensures if Connects(dial, fastOpen) then Underway(c, target, payload) else NoEnds(c)
  {
    assert [] + [target] == [target];
    FrontAndRest(payload, if fastOpen && dial.fo.FoSent? then Min(dial.fo.n, |payload|) else 0);
  }

  lemma ResolvedShown(cfg: Config, e0: CipherCtx, d0: CipherCtx, c: Conn, e: Event, c': Conn)
    requires Shows(cfg, e0, d0, c, e, c') && Targets(c) && e.Resolved? && c.server.Some?
    ensures if e.found && Connects(e.dial, e.fastOpen) then Underway(c', c.query.value.target, PendingUp(c))
            else NoEnds(c')
  {
    if e.found {
      var l := View(c).(query := Some(c.query.value.(answered := true)));
      DiallingUnderway(l, c.query.value.target, PendingUp(c), e.dial, e.fastOpen, c');
    }
  }

  /** The resolver's answer: with an address and a connect that gets underway, the relay
      connects to what was asked for, with the client's bytes; otherwise it closes. */
  lemma ResolvedExact(cfg: Config, e0: CipherCtx, d0: CipherCtx, es: seq<Event>, c: Conn, e: Event)
    requires Reached(cfg, e0, d0, es, c) && Enabled(cfg, c, e) && e.Resolved? && c.server.Some?
    ensures var c' := Step(cfg, c, e);
            if e.found && Connects(e.dial, e.fastOpen) then Underway(c', c.query.value.target, PendingUp(c))
            else NoEnds(c')
  {
    StepShows(cfg, e0, d0, es, c, e);
    DialsHeader(cfg, e0, d0, es, c);
    ResolvedShown(cfg, e0, d0, c, e, Step(cfg, c, e));
  }

  /** Bytes begin with one header at most. */
  lemma OneHeader(mask: bv8, out: Bytes, a: Address, port: nat, off: nat)
    requires IsHeader(mask, out, a, port, off)
    ensures HasHeader(mask, out) && HeaderOf(mask, out) == (Target(a, port), off)
  {
    var (target, off') := HeaderOf(mask, out);
    assert out[..|out|] == out;
    ParseComplete(mask, out, |out|, a, port, off);
    ParseComplete(mask, out, |out|, target.address, target.port, off');
  }

  /** A connection whose first chunk decrypts to `out`. */
  predicate FirstChunk(cfg: Config, c: Conn, e: Event, out: Bytes) {
    && c.server.Some? && c.server.value.stage == Init && e.ServerRecv? && e.recv.Data?
    && cfg.dec(c.server.value.dCtx, e.recv.bytes).result == CryptoOk(out)
  }

  lemma FirstChunkOpens(cfg: Config, e0: CipherCtx, d0: CipherCtx, c: Conn, e: Event, c': Conn, out: Bytes)
    requires Shows(cfg, e0, d0, c, e, c') && FirstChunk(cfg, c, e, out)
    ensures var l := View(c).(io := c.io.(fromClient := c.io.fromClient + [e.recv.bytes]));
            View(c') == Opening(cfg, l, out, e.verdict, e.dial, e.fastOpen)
    ensures c.query.None? && c.io.toRemote == []
  {
  }

  lemma HeaderShown(cfg: Config, l: Link, c': Conn, e: Event, out: Bytes, a: Address, port: nat, off: nat)
    requires Watchers(c') && e.ServerRecv? && View(c') == Opening(cfg, l, out, e.verdict, e.dial, e.fastOpen)
    requires l.query.None? && l.io.dialled == [] && l.io.toRemote == []
    requires IsHeader(cfg.mask, out, a, port, off)
    requires !(a.Domain? && (e.verdict.Blocked? || e.verdict.BadName?))
    ensures HeaderActedOn(c', e, Target(a, port), out[off..])
  {
    OneHeader(cfg.mask, out, a, port, off);
    if !(a.Domain? && e.verdict.NeedsQuery?) {
      DiallingUnderway(l, Target(a, port), out[off..], e.dial, e.fastOpen, c');
    }
  }

  /** Its name is asked for iff it needs a query, with the payload kept; otherwise it is
      connected to at once, or both ends are closed. */
  predicate HeaderActedOn(c: Conn, e: Event, target: Target, payload: Bytes)
    requires e.ServerRecv?
  {
    if target.address.Domain? && e.verdict.NeedsQuery? then
      && c.query == Some(Query(false, target)) && c.server.Some? && c.remote.None? && !c.server.value.recvIo
      && c.io.dialled == [] && c.io.toRemote == [] && PendingUp(c) == payload
    else
      && c.query.None?
      && if Connects(e.dial, e.fastOpen) then Underway(c, target, payload) else NoEnds(c)
  }

  /** What an accepted header leads to. */
  lemma HeaderExact(cfg: Config, e0: CipherCtx, d0: CipherCtx, es: seq<Event>, c: Conn, e: Event,
                    out: Bytes, a: Address, port: nat, off: nat)
    requires Reached(cfg, e0, d0, es, c) && Enabled(cfg, c, e) && FirstChunk(cfg, c, e, out)
    requires IsHeader(cfg.mask, out, a, port, off)
    requires !(a.Domain? && (e.verdict.Blocked? || e.verdict.BadName?))
    ensures HeaderActedOn(Step(cfg, c, e), e, Target(a, port), out[off..])
  {
    StepShows(cfg, e0, d0, es, c, e);
    DialsHeader(cfg, e0, d0, es, c);
    FirstChunkOpens(cfg, e0, d0, c, e, Step(cfg, c, e), out);
    var l := View(c).(io := c.io.(fromClient := c.io.fromClient + [e.recv.bytes]));
    HeaderShown(cfg, l, Step(cfg, c, e), e, out, a, port, off);
  }

  /** stop_server frees nothing. */
  lemma GoneUnstopped(cfg: Config, c: Conn, bytes: Bytes, verdict: HostVerdict, dial: Dial, fastOpen: bool)
    requires c.server.Some? && 2 <= |c.server.value.buf.data| && !c.note.stopped && c.server.value.stage == Init
    ensures var d := FirstData(cfg, c, bytes, verdict, dial, fastOpen); d.server.None? ==> !d.note.stopped
  {
  }

  /** The first decrypted bytes hold no complete header, or a malformed name. */
  ghost predicate Unusable(cfg: Config, out: Bytes, verdict: HostVerdict) {
    !HasHeader(cfg.mask, out) || (HeaderOf(cfg.mask, out).0.address.Domain? && verdict.BadName?)
  }

  ghost predicate NameBlocked(cfg: Config, out: Bytes, verdict: HostVerdict) {
    HasHeader(cfg.mask, out) && HeaderOf(cfg.mask, out).0.address.Domain? && verdict.Blocked?
  }

  lemma RefusedShown(cfg: Config, l: Link, c': Conn, e: Event, out: Bytes)
    requires Watchers(c') && e.ServerRecv? && View(c') == Opening(cfg, l, out, e.verdict, e.dial, e.fastOpen)
    requires c'.server.None? ==> !c'.note.stopped
    ensures c'.note.stopped <==> Unusable(cfg, out, e.verdict)
    ensures NameBlocked(cfg, out, e.verdict) ==> NoEnds(c') && c'.io == l.io
  {
  }

  /** A header that is refused: the relay stops iff there is no complete one, or its name is
      malformed; a blocked name closes the connection, and nothing is connected to. */
  lemma RefusedExact(cfg: Config, e0: CipherCtx, d0: CipherCtx, es: seq<Event>, c: Conn, e: Event, out: Bytes)
    requires Reached(cfg, e0, d0, es, c) && Enabled(cfg, c, e) && FirstChunk(cfg, c, e, out)
    ensures Step(cfg, c, e).note.stopped <==> Unusable(cfg, out, e.verdict)
    ensures NameBlocked(cfg, out, e.verdict) ==>
              NoEnds(Step(cfg, c, e)) && Step(cfg, c, e).io.dialled == c.io.dialled
  {
    StepShows(cfg, e0, d0, es, c, e);
    FirstChunkOpens(cfg, e0, d0, c, e, Step(cfg, c, e), out);
    GoneUnstopped(cfg, c, e.recv.bytes, e.verdict, e.dial, e.fastOpen);
    var l := View(c).(io := c.io.(fromClient := c.io.fromClient + [e.recv.bytes]));
    RefusedShown(cfg, l, Step(cfg, c, e), e, out);
  }

  // ---------------------------------------------------------------- relaying

  predicate Streaming(c: Conn) {
    c.server.Some? && c.server.value.stage == Stream
  }

  /** What a connect that is over leads to. */
  predicate ConnectOver(c: Conn, c': Conn, peerOk: bool, send: Send)
    requires c.remote.Some?
  {
    var up, confirmed := PendingUp(c), c.remote.value.connected;
    && (Streaming(c') <==>
          (confirmed || peerOk) && (if up == [] then !confirmed else send.Sent? && send.n >= |up|))
    && (!confirmed && !peerOk ==> NoEnds(c'))
    && (Streaming(c') ==>
          && c'.remote.Some? && c'.remote.value.connected && c'.io.toRemote == c.io.toRemote + up
          && c'.server.value.recvIo && c'.remote.value.recvIo)
  }

  lemma ConnectOverShown(c: Conn, c': Conn, peerOk: bool, send: Send)
    requires Watchers(c) && Watchers(c') && View(c') == ToRemote(View(c), peerOk, send)
    requires c.server.Some? && c.remote.Some? && c.remote.value.sendIo && !Streaming(c)
    ensures ConnectOver(c, c', peerOk, send)
  {
    assert c.io.toRemote + [] == c.io.toRemote;
  }

  /** A connect that is over: the relay starts to relay iff the peer is there and the whole
      first payload went out, or there was none; an absent peer closes both ends. */
  lemma StreamEntered(cfg: Config, e0: CipherCtx, d0: CipherCtx, es: seq<Event>, c: Conn, e: Event)
    requires Reached(cfg, e0, d0, es, c) && Enabled(cfg, c, e) && e.RemoteSend?
    requires c.server.Some? && !Streaming(c)
    ensures ConnectOver(c, Step(cfg, c, e), e.peerOk, e.send)
  {
    StepShows(cfg, e0, d0, es, c, e);
    ConnectOverShown(c, Step(cfg, c, e), e.peerOk, e.send);
  }

  lemma StreamingShows(c: Conn)
    requires Watchers(c)
    ensures Streaming(c) <==> View(c).phase.Relaying?
  {
  }

  lemma OthersEnterNothing(cfg: Config, e0: CipherCtx, d0: CipherCtx, l: Link, e: Event)
    requires Ready(cfg, l, e) && !e.RemoteSend? && !l.phase.Relaying?
    ensures !Next(cfg, e0, d0, l, e).phase.Relaying?
  {
  }

  /** No other callback starts the relaying. */
  lemma OnlyRemoteSendEnters(cfg: Config, e0: CipherCtx, d0: CipherCtx, es: seq<Event>, c: Conn, e: Event)
    requires Reached(cfg, e0, d0, es, c) && Enabled(cfg, c, e) && !e.RemoteSend? && !Streaming(c)
    ensures !Streaming(Step(cfg, c, e))
  {
    StepShows(cfg, e0, d0, es, c, e);
    StreamingShows(c);
    StreamingShows(Step(cfg, c, e));
    OthersEnterNothing(cfg, e0, d0, View(c), e);
  }

  /** What ends a relaying connection. */
  predicate Severs(cfg: Config, c: Conn, e: Event)
    requires c.server.Some?
  {
    match e
    case ServerRecv(recv, _, _, send, _) =>
      recv.Closed? || recv.RecvError?
      || (recv.Data? && cfg.dec(c.server.value.dCtx, recv.bytes).result.CryptoOk? && send.SendError?)
    case ServerSend(send) => send.SendError? || PendingDown(c) == []
    case Timeout => true
    case RemoteRecv(recv, send) =>
      recv.Closed? || recv.RecvError?
      || (recv.Data? && (send.SendError? || !cfg.enc(c.server.value.eCtx, recv.bytes).result.CryptoOk?))
    case RemoteSend(_, send) => send.SendError? || PendingUp(c) == []
    case _ => false
  }

  lemma SeversOnRead(cfg: Config, e0: CipherCtx, d0: CipherCtx, c: Conn, e: Event, c': Conn)
    requires Watchers(c) && Streams(cfg, e0, d0, c) && Ready(cfg, View(c), e) && Streaming(c)
    requires View(c') == Next(cfg, e0, d0, View(c), e) && (e.ServerRecv? || e.RemoteRecv?)
    ensures if Severs(cfg, c, e) then NoEnds(c') else c'.server.Some? && c'.remote.Some?
  {
  }

  lemma SeversOnWrite(cfg: Config, e0: CipherCtx, d0: CipherCtx, c: Conn, e: Event, c': Conn)
    requires Watchers(c) && Ready(cfg, View(c), e) && Streaming(c)
    requires View(c') == Next(cfg, e0, d0, View(c), e) && (e.ServerSend? || e.RemoteSend?)
    ensures if Severs(cfg, c, e) then NoEnds(c') else c'.server.Some? && c'.remote.Some?
  {
  }

  lemma SeversShown(cfg: Config, e0: CipherCtx, d0: CipherCtx, c: Conn, e: Event, c': Conn)
    requires Shows(cfg, e0, d0, c, e, c') && Streaming(c)
    ensures if Severs(cfg, c, e) then NoEnds(c') else c'.server.Some? && c'.remote.Some?
  {
    if e.ServerRecv? || e.RemoteRecv? {
      SeversOnRead(cfg, e0, d0, c, e, c');
    } else if e.ServerSend? || e.RemoteSend? {
      SeversOnWrite(cfg, e0, d0, c, e, c');
    }
  }

  /** A relaying connection closes, both ends at once, iff a side closed or failed, a send or
      the encryption failed, the timer ran out, or a writable side had nothing waiting. */
  lemma StreamEndsExactly(cfg: Config, e0: CipherCtx, d0: CipherCtx, es: seq<Event>, c: Conn, e: Event)
    requires Reached(cfg, e0, d0, es, c) && Enabled(cfg, c, e) && Streaming(c)
    ensures var c' := Step(cfg, c, e);
            if Severs(cfg, c, e) then NoEnds(c') else c'.server.Some? && c'.remote.Some?
  {
    StepShows(cfg, e0, d0, es, c, e);
    SeversShown(cfg, e0, d0, c, e, Step(cfg, c, e));
  }
}
