/** What keeps one relayed connection going, over every run: an incomplete header does not
    wait forever, and pending bytes drain whatever other callbacks fire in between. */
module RelayProgress {
  import opened Octets
  import opened RelayHeader
  import opened RelayMachine
  import opened RelayInvariant
  import opened RelayTheorems

  // ---------------------------------------------------------------- fragmented headers

  /** Before a header is accepted every chunk read was one that needed more. */
  predicate Fragments(cfg: Config, c: Conn) {
    c.server.Some? ==>
      && c.server.value.frag <= cfg.maxFrag + 1
      && (c.server.value.stage == Init && c.remote.None? ==> c.server.value.frag == |c.io.fromClient|)
  }

  lemma FirstDataFragments(cfg: Config, c: Conn, bytes: Bytes, verdict: HostVerdict, dial: Dial, fastOpen: bool)
    requires Watchers(c) && Fragments(cfg, c) && c.server.Some? && c.server.value.stage == Init && c.server.value.recvIo
    ensures Fragments(cfg, FirstData(cfg, c, bytes, verdict, dial, fastOpen))
  {
  }

  lemma StepFragments(cfg: Config, c: Conn, e: Event)
    requires Watchers(c) && Fragments(cfg, c) && Enabled(cfg, c, e)
    ensures Fragments(cfg, Step(cfg, c, e))
  {
    if e.ServerRecv? && e.recv.Data? && c.server.value.stage == Init {
      FirstDataFragments(cfg, c, e.recv.bytes, e.verdict, e.dial, e.fastOpen);
    }
  }

  lemma {:induction false} RunFragments(cfg: Config, e0: CipherCtx, d0: CipherCtx, c: Conn, es: seq<Event>)
    requires Inv(cfg, e0, d0, c) && Fragments(cfg, c) && Legal(cfg, c, es)
    ensures Fragments(cfg, Run(cfg, c, es))
    decreases |es|
  {
    if es != [] {
      StepFragments(cfg, c, es[0]);
      StepKeepsInv(cfg, e0, d0, c, es[0]);
      RunFragments(cfg, e0, d0, Step(cfg, c, es[0]), es[1..]);
    }
  }

  /** While the header is still incomplete, at most MAX_FRAG + 1 chunks have come and
      the client is read for more. */
  lemma FragmentsBounded(cfg: Config, e0: CipherCtx, d0: CipherCtx, es: seq<Event>, c: Conn)
    requires Reached(cfg, e0, d0, es, c) && c.server.Some?
    requires c.server.value.stage == Init && c.remote.None?
    ensures c.server.value.recvIo && |c.io.fromClient| == c.server.value.frag <= cfg.maxFrag + 1
  {
    AcceptedInv(cfg, e0, d0);
    ReachedInv(cfg, e0, d0, es, c);
    RunFragments(cfg, e0, d0, Accepted(cfg, e0, d0), es);
  }

  // ---------------------------------------------------------------- draining upstream

  /** Bytes (or a connect) are waiting for the remote to become writable. */
  predicate UpArmed(c: Conn) {
    c.server.Some? && c.remote.Some? && c.remote.value.sendIo
  }

  predicate PositiveUp(e: Event) {
    e.RemoteSend? && e.peerOk && e.send.Sent? && e.send.n > 0
  }

  function UpSends(es: seq<Event>): nat {
    if es == [] then 0 else (if PositiveUp(es[0]) then 1 else 0) + UpSends(es[1..])
  }

  /** Still waiting, with nothing lost, and at least a byte less after a positive send. */
  predicate UpHeld(c: Conn, c': Conn, sends: nat) {
    && UpArmed(c') && c'.io.toRemote + PendingUp(c') == c.io.toRemote + PendingUp(c)
    && |PendingUp(c')| + sends <= |PendingUp(c)| && (|PendingUp(c)| > 0 ==> |PendingUp(c')| > 0)
  }

  /** Everything that was waiting is delivered, and the client is read again. */
  predicate UpReleased(c: Conn, c': Conn) {
    && !UpArmed(c') && c'.server.Some? && c'.server.value.recvIo && c'.server.value.stage == Stream
    && c'.io.toRemote == c.io.toRemote + PendingUp(c)
  }

  lemma OthersHoldUp(cfg: Config, c: Conn, e: Event)
    requires Watchers(c) && UpArmed(c) && Enabled(cfg, c, e) && !e.RemoteSend?
    ensures var c' := Step(cfg, c, e);
            c'.server.None?
            || (UpArmed(c') && c'.remote.value.buf == c.remote.value.buf && c'.io.toRemote == c.io.toRemote)
  {
    if e.RemoteRecv? && e.recv.Data? && c.server.value.stage != Stop {
      RemoteDataUntouched(cfg, c, e.recv.bytes, e.send);
    }
  }

  lemma FlushHoldsUp(c: Conn, send: Send)
    requires UpArmed(c) && c.remote.value.buf.InBounds()
    ensures var c' := FlushRemote(c, send);
            c'.server.None? || UpHeld(c, c', if send.Sent? && send.n > 0 then 1 else 0) || UpReleased(c, c')
  {
    var b := c.remote.value.buf;
    var c' := FlushRemote(c, send);
    if send.Sent? && b.len > 0 {
      SendConserves(c.io.toRemote, b, Min(send.n, b.len), c.io.toRemote + PendingUp(c));
    }
  }

  /** While bytes wait for the remote, any callback at all leaves them waiting, delivers
      them, or closes the connection; a positive send takes at least one of them. */
  lemma UpstreamShrinks(cfg: Config, c: Conn, e: Event)
    requires Watchers(c) && Upstream(c) && UpArmed(c) && Enabled(cfg, c, e)
    ensures var c' := Step(cfg, c, e);
            c'.server.None? || UpHeld(c, c', if PositiveUp(e) then 1 else 0) || UpReleased(c, c')
  {
    if e.RemoteSend? {
      var r := c.remote.value;
      var c1 := c.(remote := Some(r.(connected := true)));
      if r.connected || (e.peerOk && r.buf.len != 0) {
        assert r.connected ==> c1 == c;
        FlushHoldsUp(c1, e.send);
      } else if e.peerOk {
        assert c.io.toRemote + PendingUp(c) == c.io.toRemote;
      }
    } else {
      OthersHoldUp(cfg, c, e);
    }
  }

  /** Before every event of the run the bytes are still waiting. */
  predicate UpUntil(cfg: Config, c: Conn, es: seq<Event>)
    requires Legal(cfg, c, es)
    decreases |es|
  {
    es == [] || (UpArmed(c) && UpUntil(cfg, Step(cfg, c, es[0]), es[1..]))
  }

  lemma UpUntilCons(cfg: Config, c: Conn, e: Event, es: seq<Event>)
    requires Enabled(cfg, c, e) && Legal(cfg, Step(cfg, c, e), es) && Legal(cfg, c, [e] + es)
    requires UpArmed(c) && UpUntil(cfg, Step(cfg, c, e), es)
    ensures UpUntil(cfg, c, [e] + es)
  {
    assert ([e] + es)[1..] == es;
  }

  /** What a run that begins with `first` has done about the waiting bytes by then. */
  predicate UpDrained(c: Conn, es: seq<Event>, first: seq<Event>, rest: seq<Event>, c': Conn) {
    && es == first + rest
    && if UpArmed(c') then rest == [] && UpHeld(c, c', UpSends(es))
       else UpSends(first) <= (if PendingUp(c) == [] then 1 else |PendingUp(c)|)
            && (c'.server.None? || UpReleased(c, c'))
  }

  lemma UpSendsCons(e: Event, es: seq<Event>)
    ensures UpSends([e] + es) == (if PositiveUp(e) then 1 else 0) + UpSends(es)
  {
    assert ([e] + es)[1..] == es;
  }

  lemma UpDrainedCons(c: Conn, e: Event, c1: Conn, es: seq<Event>, first: seq<Event>, rest: seq<Event>, c': Conn)
    requires UpArmed(c1) && UpHeld(c, c1, if PositiveUp(e) then 1 else 0) && UpDrained(c1, es, first, rest, c')
    ensures UpDrained(c, [e] + es, [e] + first, rest, c')
  {
    UpSendsCons(e, es);
    UpSendsCons(e, first);
    assert [e] + es == [e] + first + rest;
  }

  lemma UpDrainedNow(c: Conn, e: Event, c1: Conn, es: seq<Event>)
    requires !UpArmed(c1) && (c1.server.None? || UpReleased(c, c1))
    ensures UpDrained(c, [e] + es, [e], es, c1)
  {
    UpSendsCons(e, []);
    assert [e] + [] == [e];
  }

  lemma {:induction false} DrainUp(cfg: Config, e0: CipherCtx, d0: CipherCtx, c: Conn, es: seq<Event>)
    returns (first: seq<Event>, rest: seq<Event>)
    requires Inv(cfg, e0, d0, c) && Legal(cfg, c, es) && UpArmed(c)
    ensures Legal(cfg, c, first) && UpUntil(cfg, c, first)
    ensures UpDrained(c, es, first, rest, Run(cfg, c, first))
    decreases |es|
  {
    if es == [] {
      return [], [];
    }
    var e, tail, c1 := es[0], es[1..], Step(cfg, c, es[0]);
    assert es == [e] + tail;
    UpstreamShrinks(cfg, c, e);
    if UpArmed(c1) {
      StepKeepsInv(cfg, e0, d0, c, e);
      first, rest := DrainUp(cfg, e0, d0, c1, tail);
      RunCons(cfg, c, e, first);
      UpUntilCons(cfg, c, e, first);
      UpDrainedCons(c, e, c1, tail, first, rest, Run(cfg, c1, first));
      first := [e] + first;
    } else {
      RunOne(cfg, c, e);
      assert [e] + [] == [e];
      UpUntilCons(cfg, c, e, []);
      UpDrainedNow(c, e, c1, tail);
      first, rest := [e], tail;
    }
  }

  /** Draining upstream, over every legal run from a state in which bytes wait for the
      remote: either they still wait at its end, fewer by at least the positive sends
      so far; or they wait through a first part of the run, with no more such sends than
      there were bytes (one, if there were none), and its last event closes the
      connection, or leaves all of them delivered in order and the client read again. */
  lemma UpstreamDrains(cfg: Config, e0: CipherCtx, d0: CipherCtx, c: Conn, es: seq<Event>)
    requires Inv(cfg, e0, d0, c) && Legal(cfg, c, es) && UpArmed(c)
    ensures exists first, rest ::
              Legal(cfg, c, first) && UpUntil(cfg, c, first)
              && UpDrained(c, es, first, rest, Run(cfg, c, first))
  {
    var first, rest := DrainUp(cfg, e0, d0, c, es);
  }

  // ---------------------------------------------------------------- draining downstream

  /** Bytes are waiting for the client to become writable. */
  predicate DownArmed(c: Conn) {
    c.server.Some? && c.server.value.sendIo
  }

  predicate PositiveDown(e: Event) {
    e.ServerSend? && e.send.Sent? && e.send.n > 0
  }

  function DownSends(es: seq<Event>): nat {
    if es == [] then 0 else (if PositiveDown(es[0]) then 1 else 0) + DownSends(es[1..])
  }

  /** A chunk from the client read into the buffer whose bytes wait to go to it. */
  predicate Overwrites(c: Conn, e: Event) {
    c.server.Some? && c.server.value.stage == Stop && e.ServerRecv? && e.recv.Data?
  }

  predicate Clean(cfg: Config, c: Conn, es: seq<Event>)
    requires Legal(cfg, c, es)
    decreases |es|
  {
    es == [] || (!Overwrites(c, es[0]) && Clean(cfg, Step(cfg, c, es[0]), es[1..]))
  }

  /** As upstream; after an overwriting read only the number of bytes is kept. */
  predicate DownHeld(c: Conn, c': Conn, sends: nat, clean: bool) {
    && DownArmed(c') && |c'.io.toClient| + |PendingDown(c')| == |c.io.toClient| + |PendingDown(c)|
    && (clean ==> c'.io.toClient + PendingDown(c') == c.io.toClient + PendingDown(c))
    && |PendingDown(c')| + sends <= |PendingDown(c)| && (|PendingDown(c)| > 0 ==> |PendingDown(c')| > 0)
  }

  predicate DownReleased(c: Conn, c': Conn, clean: bool) {
    && !DownArmed(c') && c'.server.Some? && c'.remote.Some? && c'.remote.value.recvIo
    && |c'.io.toClient| == |c.io.toClient| + |PendingDown(c)|
    && (clean ==> c'.io.toClient == c.io.toClient + PendingDown(c))
  }

  lemma SendHoldsDown(c: Conn, send: Send)
    requires Watchers(c) && Downstream(c) && DownArmed(c)
    ensures var c' := OnServerSend(c, send);
            c'.server.None? || DownHeld(c, c', if send.Sent? && send.n > 0 then 1 else 0, true)
            || DownReleased(c, c', true)
  {
    var b := c.server.value.buf;
    if send.Sent? && b.len > 0 {
      SendConserves(c.io.toClient, b, Min(send.n, b.len), c.io.toClient + PendingDown(c));
    }
  }

  lemma RecvHoldsDown(cfg: Config, c: Conn, e: Event)
    requires Watchers(c) && Downstream(c) && DownArmed(c) && Enabled(cfg, c, e) && e.ServerRecv?
    ensures var c' := Step(cfg, c, e); c'.server.None? || DownHeld(c, c', 0, !Overwrites(c, e))
  {
    if e.recv.Data? && c.server.value.stage == Stream {
      StreamDataUntouched(cfg, c, e.recv.bytes, e.send);
    }
  }

  lemma OthersHoldDown(cfg: Config, c: Conn, e: Event)
    requires Watchers(c) && DownArmed(c) && Enabled(cfg, c, e) && !e.ServerRecv? && !e.ServerSend?
    ensures var c' := Step(cfg, c, e);
            c'.server.None?
            || (DownArmed(c') && c'.server.value.buf == c.server.value.buf && c'.io.toClient == c.io.toClient)
  {
  }

  lemma DownstreamShrinks(cfg: Config, c: Conn, e: Event)
    requires Watchers(c) && Downstream(c) && DownArmed(c) && Enabled(cfg, c, e)
    ensures var c', clean := Step(cfg, c, e), !Overwrites(c, e);
            c'.server.None? || DownHeld(c, c', if PositiveDown(e) then 1 else 0, clean) || DownReleased(c, c', clean)
  {
    match e {
      case ServerSend(send) => SendHoldsDown(c, send);
      case ServerRecv(_, _, _, _, _) => RecvHoldsDown(cfg, c, e);
      case _ => OthersHoldDown(cfg, c, e);
    }
  }

  /** Before every event of the run the bytes are still waiting. */
  predicate DownUntil(cfg: Config, c: Conn, es: seq<Event>)
    requires Legal(cfg, c, es)
    decreases |es|
  {
    es == [] || (DownArmed(c) && DownUntil(cfg, Step(cfg, c, es[0]), es[1..]))
  }

  lemma DownUntilCons(cfg: Config, c: Conn, e: Event, es: seq<Event>)
    requires Enabled(cfg, c, e) && Legal(cfg, Step(cfg, c, e), es) && Legal(cfg, c, [e] + es)
    requires DownArmed(c) && DownUntil(cfg, Step(cfg, c, e), es)
    ensures DownUntil(cfg, c, [e] + es)
  {
    assert ([e] + es)[1..] == es;
  }

  predicate DownDrained(c: Conn, es: seq<Event>, first: seq<Event>, rest: seq<Event>, c': Conn, clean: bool) {
    && es == first + rest
    && if DownArmed(c') then rest == [] && DownHeld(c, c', DownSends(es), clean)
       else DownSends(first) <= (if PendingDown(c) == [] then 1 else |PendingDown(c)|)
            && (c'.server.None? || DownReleased(c, c', clean))
  }

  lemma DownSendsCons(e: Event, es: seq<Event>)
    ensures DownSends([e] + es) == (if PositiveDown(e) then 1 else 0) + DownSends(es)
  {
    assert ([e] + es)[1..] == es;
  }

  lemma DownDrainedCons(c: Conn, e: Event, c1: Conn, es: seq<Event>, first: seq<Event>, rest: seq<Event>, c': Conn,
                        now: bool, later: bool)
    requires DownArmed(c1) && DownHeld(c, c1, if PositiveDown(e) then 1 else 0, now)
    requires DownDrained(c1, es, first, rest, c', later)
    ensures DownDrained(c, [e] + es, [e] + first, rest, c', now && later)
  {
    DownSendsCons(e, es);
    DownSendsCons(e, first);
    assert [e] + es == [e] + first + rest;
  }

  lemma DownDrainedNow(c: Conn, e: Event, c1: Conn, es: seq<Event>, clean: bool)
    requires !DownArmed(c1) && (c1.server.None? || DownReleased(c, c1, clean))
    ensures DownDrained(c, [e] + es, [e], es, c1, clean)
  {
    DownSendsCons(e, []);
    assert [e] + [] == [e];
  }

  lemma CleanCons(cfg: Config, c: Conn, e: Event, es: seq<Event>)
    requires Enabled(cfg, c, e) && Legal(cfg, Step(cfg, c, e), es) && Legal(cfg, c, [e] + es)
    ensures Clean(cfg, c, [e] + es) <==> !Overwrites(c, e) && Clean(cfg, Step(cfg, c, e), es)
  {
    assert ([e] + es)[1..] == es;
  }

  lemma {:induction false} DrainDown(cfg: Config, e0: CipherCtx, d0: CipherCtx, c: Conn, es: seq<Event>)
    returns (first: seq<Event>, rest: seq<Event>)
    requires Inv(cfg, e0, d0, c) && Legal(cfg, c, es) && DownArmed(c)
    ensures Legal(cfg, c, first) && DownUntil(cfg, c, first)
    ensures DownDrained(c, es, first, rest, Run(cfg, c, first), Clean(cfg, c, first))
    decreases |es|
  {
    if es == [] {
      return [], [];
    }
    var e, tail, c1 := es[0], es[1..], Step(cfg, c, es[0]);
    assert es == [e] + tail;
    DownstreamShrinks(cfg, c, e);
    if DownArmed(c1) {
      StepKeepsInv(cfg, e0, d0, c, e);
      first, rest := DrainDown(cfg, e0, d0, c1, tail);
      RunCons(cfg, c, e, first);
      DownUntilCons(cfg, c, e, first);
      CleanCons(cfg, c, e, first);
      DownDrainedCons(c, e, c1, tail, first, rest, Run(cfg, c1, first), !Overwrites(c, e), Clean(cfg, c1, first));
      first := [e] + first;
    } else {
      RunOne(cfg, c, e);
      assert [e] + [] == [e];
      DownUntilCons(cfg, c, e, []);
      CleanCons(cfg, c, e, []);
      DownDrainedNow(c, e, c1, tail, !Overwrites(c, e));
      first, rest := [e], tail;
    }
  }

  /** The same towards the client. The order of the bytes is kept unless the client is
      read after stop_server in between; how many they are is kept in any case. */
  lemma DownstreamDrains(cfg: Config, e0: CipherCtx, d0: CipherCtx, c: Conn, es: seq<Event>)
    requires Inv(cfg, e0, d0, c) && Legal(cfg, c, es) && DownArmed(c)
    ensures exists first, rest ::
              Legal(cfg, c, first) && DownUntil(cfg, c, first)
              && DownDrained(c, es, first, rest, Run(cfg, c, first), Clean(cfg, c, first))
  {
    var first, rest := DrainDown(cfg, e0, d0, c, es);
  }

  // ---------------------------------------------------------------- refused empty sends

  /** A send of zero bytes that the kernel refused leaves a send watcher armed over an
      empty buffer; until then no faulty branch was taken. */
  predicate Refusal(c: Conn) {
    c.server.Some? ==>
      && c.note.faults == {}
      && (c.note.zeroBlocked ==>
            || (c.remote.Some? && c.remote.value.connected && c.remote.value.sendIo && c.remote.value.buf.len == 0)
            || (c.server.value.sendIo && c.server.value.buf.len == 0))
  }

  lemma DialledRefusal(cfg: Config, c: Conn, target: Target, dial: Dial, fastOpen: bool)
    requires c.server.Some? && c.note.faults == {} && !c.note.zeroBlocked
    ensures Refusal(Dialled(cfg, c, target, dial, fastOpen))
    ensures var d := Dialled(cfg, c, target, dial, fastOpen); d.note == c.note
  {
  }

  lemma ServerRecvRefusal(cfg: Config, c: Conn, e: Event)
    requires Watchers(c) && Refusal(c) && Enabled(cfg, c, e) && e.ServerRecv?
    ensures Refusal(Step(cfg, c, e))
  {
    if e.recv.Data? && c.server.value.stage == Init {
      FirstDataRefusal(cfg, c, e.recv.bytes, e.verdict, e.dial, e.fastOpen);
    }
  }

  /** A handshake sends nothing that could be refused. */
  lemma FirstDataRefusal(cfg: Config, c: Conn, bytes: Bytes, verdict: HostVerdict, dial: Dial, fastOpen: bool)
    requires Watchers(c) && Refusal(c) && c.server.Some? && c.server.value.stage == Init && c.server.value.recvIo
    ensures Refusal(FirstData(cfg, c, bytes, verdict, dial, fastOpen))
  {
    var (c1, b, result) := Decrypted(cfg, c, bytes, c.server.value.buf);
    if result.CryptoOk? {
      var p := Parse(cfg.mask, b.data, b.len);
      if p.Parsed? {
        var c2 := HeaderOff(c1.(server := Some(c1.server.value.(buf := b))), p);
        DialledRefusal(cfg, c2, Target(p.address, p.port), dial, fastOpen);
      }
    }
  }

  lemma RemoteDataRefusal(cfg: Config, c: Conn, bytes: Bytes, send: Send)
    requires Refusal(c) && c.server.Some? && c.remote.Some? && !c.server.value.sendIo
    ensures Refusal(RemoteData(cfg, c, bytes, send))
  {
  }

  lemma StepRefusal(cfg: Config, c: Conn, e: Event)
    requires Watchers(c) && Refusal(c) && Enabled(cfg, c, e)
    ensures Refusal(Step(cfg, c, e))
  {
    match e {
      case ServerRecv(_, _, _, _, _) => ServerRecvRefusal(cfg, c, e);
      case RemoteRecv(recv, send) =>
        if recv.Data? && c.server.Some? && c.server.value.stage != Stop {
          RemoteDataRefusal(cfg, c, recv.bytes, send);
        }
      case Resolved(found, dial, fastOpen) =>
        var q := c.query.value;
        if c.server.Some? && found {
          DialledRefusal(cfg, c.(query := Some(q.(answered := true))), q.target, dial, fastOpen);
        }
      case _ =>
    }
  }

  lemma {:induction false} RunRefusal(cfg: Config, e0: CipherCtx, d0: CipherCtx, c: Conn, es: seq<Event>)
    requires Inv(cfg, e0, d0, c) && Refusal(c) && Legal(cfg, c, es)
    ensures Refusal(Run(cfg, c, es))
    decreases |es|
  {
    if es != [] {
      StepRefusal(cfg, c, es[0]);
      StepKeepsInv(cfg, e0, d0, c, es[0]);
      RunRefusal(cfg, e0, d0, Step(cfg, c, es[0]), es[1..]);
    }
  }

  /** Taking the branch needs a refused empty send before it. */
  lemma EmptySendNeedsRefusal(cfg: Config, c: Conn, f: Event)
    requires Watchers(c) && c.server.Some? && c.note.faults == {} && Enabled(cfg, c, f)
    ensures EmptySend in Step(cfg, c, f).note.faults ==> c.note.zeroBlocked
  {
  }

  /** The closes on an empty buffer, exactly: in every run, while the client side lives
      no such close has happened, and one callback can lead to it iff the kernel has
      refused a send of zero bytes. */
  lemma EmptySendExact(cfg: Config, e0: CipherCtx, d0: CipherCtx, es: seq<Event>, c: Conn)
    requires Reached(cfg, e0, d0, es, c) && c.server.Some?
    ensures c.note.faults == {}
    ensures (exists f :: Enabled(cfg, c, f) && EmptySend in Step(cfg, c, f).note.faults) <==> c.note.zeroBlocked
  {
    AcceptedInv(cfg, e0, d0);
    ReachedInv(cfg, e0, d0, es, c);
    RunRefusal(cfg, e0, d0, Accepted(cfg, e0, d0), es);
    if c.note.zeroBlocked {
      var f := if c.server.value.sendIo && c.server.value.buf.len == 0 then ServerSend(SendAgain)
               else RemoteSend(true, SendAgain);
      assert Enabled(cfg, c, f) && EmptySend in Step(cfg, c, f).note.faults;
    } else {
      forall f | Enabled(cfg, c, f)
        ensures EmptySend !in Step(cfg, c, f).note.faults
      {
        EmptySendNeedsRefusal(cfg, c, f);
      }
    }
  }
}
