/** Runs that show which guarantees of RelayTheorems cannot be had without their
    conditions: a kernel that refuses empty sends leads to the empty-buffer close, and
    after stop_server the client may be sent bytes that the remote never sent. */
module RelayWitness {
  import opened Octets
  import opened RelayHeader
  import opened RelayMachine
  import opened RelayInvariant
  import opened RelayTheorems

  /** A cipher without secrets: 0 as first byte stands for an empty message, 255 for
      one that fails to decrypt, and everything else for itself. */
  function Echo(ctx: CipherCtx, bytes: Bytes): CryptoStep {
    CryptoStep(ctx, if bytes == [] then CryptoNeedMore
                    else if bytes[0] == 0 then CryptoOk([])
                    else if bytes[0] == 255 then CryptoError
                    else CryptoOk(bytes))
  }

  function Setting(): Config {
    Config(16, 15, 3, false, Echo, Echo)
  }

  /** A client that asks for 10.0.0.1, port 80. */
  const HELLO: Bytes := [1, 10, 0, 0, 1, 0, 80]

  function FromClient(bytes: Bytes, send: Send): Event {
    ServerRecv(Data(bytes), NeedsQuery, Dial(true, FoUnsupported, true), send, false)
  }

  lemma ReachedNext(cfg: Config, e0: CipherCtx, d0: CipherCtx, es: seq<Event>, c: Conn, e: Event)
    requires Reached(cfg, e0, d0, es, c) && Enabled(cfg, c, e)
    ensures Reached(cfg, e0, d0, es + [e], Step(cfg, c, e))
  {
    RunOne(cfg, c, e);
    RunConcat(cfg, Accepted(cfg, e0, d0), es, [e]);
  }

  /** In the stream stage, nothing pending either way. */
  predicate Idle(c: Conn) {
    && c.server.Some? && c.server.value.stage == Stream && c.server.value.recvIo && !c.server.value.sendIo
    && 2 <= |c.server.value.buf.data|
    && c.remote.Some? && c.remote.value.connected && c.remote.value.recvIo && !c.remote.value.sendIo
    && c.io.toClient == [] && c.note.sealed == [] && c.note.faults == {} && !c.note.stopped
  }

  lemma HelloParses()
    ensures Parse(15, HELLO, 7) == Parsed(IPv4([10, 0, 0, 1]), 80, 7)
  {
    assert Masked(1, 15) == 1;
    assert HELLO[1..5] == [10, 0, 0, 1];
  }

  lemma Dialling() returns (es: seq<Event>, c: Conn)
    ensures Reached(Setting(), [], [], es, c)
    ensures c.server.Some? && c.server.value.stage == Init && !c.server.value.sendIo && 2 <= |c.server.value.buf.data|
    ensures c.remote.Some? && c.remote.value.sendIo && !c.remote.value.connected && c.remote.value.buf.len == 0
    ensures c.io.toClient == [] && c.note.sealed == [] && c.note.faults == {} && !c.note.stopped
  {
    var cfg, e := Setting(), FromClient(HELLO, SendAgain);
    var c0 := Accepted(cfg, [], []);
    var b := c0.server.value.buf.Write(HELLO).Write(HELLO);
    assert b.data[..7] == HELLO;
    HelloParses();
    ParseIgnoresStaleBytes(15, HELLO, b.data, 7);
    assert Reached(cfg, [], [], [], c0);
    ReachedNext(cfg, [], [], [], c0, e);
    es, c := [] + [e], Step(cfg, c0, e);
  }

  lemma Streaming() returns (es: seq<Event>, c: Conn)
    ensures Reached(Setting(), [], [], es, c) && Idle(c)
  {
    es, c := Dialling();
    var e := RemoteSend(true, SendAgain);
    ReachedNext(Setting(), [], [], es, c, e);
    es, c := es + [e], Step(Setting(), c, e);
  }

  lemma EmptySendHappensRun() returns (es: seq<Event>, c: Conn)
    ensures Reached(Setting(), [], [], es, c) && EmptySend in c.note.faults && c.server.None?
  {
    es, c := Streaming();
    var e, f := FromClient([0], SendAgain), RemoteSend(true, SendAgain);
    ReachedNext(Setting(), [], [], es, c, e);
    es, c := es + [e], Step(Setting(), c, e);
    ReachedNext(Setting(), [], [], es, c, f);
    es, c := es + [f], Step(Setting(), c, f);
  }

  /** The condition on empty sends is needed: a chunk that decrypts to nothing, refused
      by the kernel, arms the send watcher over an empty buffer, and the next callback
      closes the connection on it. */
  lemma EmptySendHappens()
    ensures exists es, c :: Reached(Setting(), [], [], es, c) && EmptySend in c.note.faults
  {
    var es, c := EmptySendHappensRun();
  }

  /** stop_server with bytes still pending for the client. */
  lemma StoppedWhileSending() returns (es: seq<Event>, c: Conn)
    ensures Reached(Setting(), [], [], es, c) && c.note.sealed == [7, 7] && c.io.toClient == []
    ensures c.server.Some? && c.server.value.stage == Stop && c.server.value.sendIo && c.server.value.recvIo
    ensures c.server.value.buf.idx == 0 && c.server.value.buf.len == 2 && PendingDown(c) == [7, 7]
    ensures 2 <= |c.server.value.buf.data| && c.remote.Some?
  {
    es, c := Streaming();
    var e, f := RemoteRecv(Data([7, 7]), SendAgain), FromClient([255], SendAgain);
    ReachedNext(Setting(), [], [], es, c, e);
    es, c := es + [e], Step(Setting(), c, e);
    assert c.server.value.buf.data[..2] == [7, 7];
    ReachedNext(Setting(), [], [], es, c, f);
    es, c := es + [f], Step(Setting(), c, f);
  }

  lemma StopCorruptsAnswerRun() returns (es: seq<Event>, c: Conn)
    ensures Reached(Setting(), [], [], es, c) && c.note.stopped
    ensures c.note.sealed == [7, 7] && c.io.toClient == [9, 7]
  {
    es, c := StoppedWhileSending();
    ReachedInv(Setting(), [], [], es, c);
    var e, f := FromClient([9], SendAgain), ServerSend(Sent(2));
    var data := c.server.value.buf.data;
    assert data[0..2] == [7, 7] && data[1] == data[0..2][1];
    ReachedNext(Setting(), [], [], es, c, e);
    es, c := es + [e], Step(Setting(), c, e);
    assert c.server.value.buf.data[0..2] == [9, 7];
    ReachedNext(Setting(), [], [], es, c, f);
    es, c := es + [f], Step(Setting(), c, f);
  }

  /** Downstream conservation ends with stop_server: what the client sends next lands
      in the buffer its own answer is waiting in, and goes back to it. */
  lemma StopCorruptsAnswer()
    ensures exists es, c :: Reached(Setting(), [], [], es, c) && c.note.stopped
              && c.note.sealed == [7, 7] && c.io.toClient == [9, 7]
  {
    var es, c := StopCorruptsAnswerRun();
  }

  lemma StopLeaksRemoteRun() returns (es: seq<Event>, c: Conn)
    ensures Reached(Setting(), [], [], es, c) && c.server.None? && c.remote.Some?
    ensures forall fs :: Legal(Setting(), c, fs) ==> Run(Setting(), c, fs).remote == c.remote
  {
    es, c := StoppedWhileSending();
    ReachedInv(Setting(), [], [], es, c);
    var e := ServerRecv(Closed, NeedsQuery, Dial(true, FoUnsupported, true), SendAgain, false);
    ReachedNext(Setting(), [], [], es, c, e);
    es, c := es + [e], Step(Setting(), c, e);
    forall fs | Legal(Setting(), c, fs)
      ensures Run(Setting(), c, fs).remote == c.remote
    {
      OrphanLeaks(Setting(), c, fs);
    }
  }

  /** And a client that closes there leaves the remote allocated for good. */
  lemma StopLeaksRemote()
    ensures exists es, c :: Reached(Setting(), [], [], es, c) && c.server.None? && c.remote.Some?
              && forall fs :: Legal(Setting(), c, fs) ==> Run(Setting(), c, fs).remote == c.remote
  {
    var es, c := StopLeaksRemoteRun();
  }
}
