/** The event loop over all connections: whichever callback the environment fires
    next, the whole process keeps its invariant, and exactly one connection makes
    one legal step of RelayMachine. */
module RelayLoop {
  import M = RelayMachine
  import I = RelayInvariant
  import T = RelayTheorems
  import opened Octets
  import opened RelayHeap

  /** In a trigger: the quantified fact serves only proofs that look for it. */
  predicate Look<T>(x: T) {
    true
  }

  /** The recorded run is a legal one and leads to the recorded state. The trigger keeps
      runs and steps out of proofs about objects and lists. */
  ghost predicate Genuine(cfg: M.Config, t: Track) {
    forall u: Track {:trigger Look(u)} :: Look(u) && u == t ==> T.Reached(cfg, u.e0, u.d0, u.trace, u.conn)
  }

  /** Event e takes state c to state c'. */
  ghost predicate Leads(cfg: M.Config, c: M.Conn, e: M.Event, c': M.Conn) {
    forall d: M.Conn {:trigger Look(d)} :: Look(d) && d == c ==> M.Enabled(cfg, d, e) && c' == M.Step(cfg, d, e)
  }

  /** The record after event e has led to c'. */
  ghost function Next(t: Track, e: M.Event, c': M.Conn): Track {
    t.(trace := t.trace + [e], conn := c')
  }

  lemma GenuineStart(cfg: M.Config, e: M.CipherCtx, d: M.CipherCtx)
    requires 2 <= cfg.cap
    ensures Genuine(cfg, Track(e, d, [], M.Accepted(cfg, e, d)))
  {
  }

  lemma GenuineReached(cfg: M.Config, t: Track)
    requires Genuine(cfg, t)
    ensures T.Reached(cfg, t.e0, t.d0, t.trace, t.conn)
  {
    assert Look(t);
  }

  lemma NextReached(cfg: M.Config, t: Track, e: M.Event, c': M.Conn)
    requires T.Reached(cfg, t.e0, t.d0, t.trace, t.conn) && M.Enabled(cfg, t.conn, e) && c' == M.Step(cfg, t.conn, e)
    ensures T.Reached(cfg, t.e0, t.d0, t.trace + [e], c')
  {
    T.RunOne(cfg, t.conn, e);
    T.RunConcat(cfg, M.Accepted(cfg, t.e0, t.d0), t.trace, [e]);
  }

  lemma NextGenuine(cfg: M.Config, t: Track, e: M.Event, c': M.Conn)
    requires Genuine(cfg, t) && Leads(cfg, t.conn, e, c')
    ensures Genuine(cfg, Next(t, e, c'))
  {
    GenuineReached(cfg, t);
    assert Look(t.conn);
    NextReached(cfg, t, e, c');
  }

  lemma GenuineInv(cfg: M.Config, t: Track)
    requires Genuine(cfg, t)
    ensures I.Watchers(t.conn) && I.Upstream(t.conn) && I.Downstream(t.conn)
  {
    GenuineReached(cfg, t);
    T.ReachedInv(cfg, t.e0, t.d0, t.trace, t.conn);
  }

  lemma LeadsToStep(cfg: M.Config, c: M.Conn, e: M.Event)
    requires M.Enabled(cfg, c, e)
    ensures Leads(cfg, c, e, M.Step(cfg, c, e))
  {
  }

  /** What an event is about. Shutting down closes a server as its timer would. */
  datatype Target = OnServer(s: Server) | OnShutdown(s: Server) | OnRemote(r: Remote) | OnQuery(q: Query)
  {
    ghost function Home(): Connection {
      match this
      case OnServer(s) => s.home
      case OnShutdown(s) => s.home
      case OnRemote(r) => r.home
      case OnQuery(q) => q.home
    }

    ghost predicate Live()
      reads Home()
    {
      match this
      case OnServer(s) => s.home.server == s
      case OnShutdown(s) => s.home.server == s
      case OnRemote(r) => r.home.remote == r
      case OnQuery(q) => q.home.query == q
    }

    predicate Fits(e: M.Event) {
      match e
      case ServerRecv(_, _, _, _, _) => OnServer?
      case ServerSend(_) => OnServer?
      case Timeout => OnServer? || OnShutdown?
      case RemoteRecv(_, _) => OnRemote?
      case RemoteSend(_, _) => OnRemote?
      case Resolved(_, _, _) => OnQuery?
      case ResolvFree => OnQuery?
    }
  }

  /** The event carries the process's fast-open setting. */
  predicate SameSetting(e: M.Event, fastOpen: bool) {
    (e.ServerRecv? ==> e.fastOpen == fastOpen) && (e.Resolved? ==> e.fastOpen == fastOpen)
  }

  /** One callback, on the connection it belongs to. */
  method Dispatch(relay: Relay, t: Target, e: M.Event, ghost c: M.Conn)
    requires t.Live() && t.Fits(e) && relay.Holds(t.Home(), c)
    requires M.Enabled(relay.cfg, c, e) && SameSetting(e, relay.fastOpen)
    requires I.Watchers(c) && I.Upstream(c) && I.Downstream(c)
    modifies relay, t.Home(), t.Home().server, t.Home().remote, t.Home().query
    ensures relay.Holds(t.Home(), M.Step(relay.cfg, c, e)) && relay.OnlyTouches(t.Home())
    ensures t.Home().LetGo(old(t.Home().server), old(t.Home().remote), old(t.Home().query))
  {
    match e {
      case ServerRecv(recv, verdict, dial, send, _) => relay.ServerRecvCb(t.s, recv, verdict, dial, send, c);
      case ServerSend(send) => relay.ServerSendCb(t.s, send, c);
      case Timeout =>
        if t.OnShutdown? {
          relay.CloseForShutdown(t.s, c);
        } else {
          relay.ServerTimeoutCb(t.s, c);
        }
      case RemoteRecv(recv, send) => relay.RemoteRecvCb(t.r, recv, send, c);
      case RemoteSend(peerOk, send) => relay.RemoteSendCb(t.r, peerOk, send, c);
      case Resolved(found, dial, _) => relay.ResolvCb(t.q, found, dial, c);
      case ResolvFree => relay.ResolvFreeCb(t.q, c);
    }
  }

  /** The same for a connection with a record, the step under cover. */
  method Perform(relay: Relay, t: Target, e: M.Event, ghost k: Connection) returns (ghost c': M.Conn)
    requires k == t.Home() && t.Live() && t.Fits(e) && SameSetting(e, relay.fastOpen)
    requires relay.Holds(k, k.track.conn) && Genuine(relay.cfg, k.track) && M.Enabled(relay.cfg, k.track.conn, e)
    modifies relay, k, k.server, k.remote, k.query
    ensures Leads(relay.cfg, old(k.track).conn, e, c') && relay.Holds(k, c') && relay.OnlyTouches(k)
    ensures k.LetGo(old(k.server), old(k.remote), old(k.query))
  {
    ghost var c := k.track.conn;
    GenuineInv(relay.cfg, k.track);
    c' := M.Step(relay.cfg, c, e);
    LeadsToStep(relay.cfg, c, e);
    Dispatch(relay, t, e, c);
  }

  class Loop {
    const relay: Relay
    ghost var conns: set<Connection>

    constructor (cfg: M.Config, verbose: bool, fastOpen: bool)
      requires 2 <= cfg.cap
      ensures Valid() && conns == {} && fresh(relay) && relay.cfg == cfg
    {
      relay := new Relay(cfg, verbose, fastOpen);
      conns := {};
    }

    /** `connections` lists exactly the allocated servers, `remotes` the allocated
        remotes, and the verbose counters count them. */
    ghost predicate Roster()
      reads this, relay, conns
    {
      && relay.Counted()
      && (forall k :: k in conns ==> relay.Booked(k))
      && (forall s :: s in relay.connections ==> s.home in conns && s.home.server == s)
      && (forall r :: r in relay.remotes ==> r.home in conns && r.home.remote == r)
    }

    /** The objects of a connection know it. */
    ghost predicate Homes()
      reads this, conns
    {
      forall k :: k in conns ==>
        && (k.server != null ==> k.server.home == k)
        && (k.remote != null ==> k.remote.home == k)
        && (k.query != null ==> k.query.home == k)
    }

    /** Every connection shows the state that a legal run of its own has reached. */
    ghost predicate Valid()
      reads this, relay, conns
      reads set k | k in conns :: k.server
      reads set k | k in conns :: k.remote
      reads set k | k in conns :: k.query
    {
      && Homes() && Roster()
      && (forall k :: k in conns ==> k.Shows(k.track.conn))
      && AllGenuine()
    }

    /** Connection k makes step e. */
    twostate predicate Stepped(k: Connection, e: M.Event)
      reads this, k
    {
      && conns == old(conns) && k in conns
      && Leads(relay.cfg, old(k.track).conn, e, k.track.conn)
      && k.track == Next(old(k.track), e, k.track.conn)
    }

    /** Every connection but k shows its recorded state. */
    ghost predicate OthersShow(k: Connection)
      reads this, conns
      reads set j | j in conns :: j.server
      reads set j | j in conns :: j.remote
      reads set j | j in conns :: j.query
    {
      forall j :: j in conns && j != k ==> j.Shows(j.track.conn)
    }

    /** The callback, and the lists it leaves behind. */
    method DispatchBooked(t: Target, e: M.Event, ghost k: Connection) returns (ghost c': M.Conn)
      requires Homes() && Roster() && k in conns && k.Shows(k.track.conn)
      requires k == t.Home() && t.Live() && t.Fits(e) && SameSetting(e, relay.fastOpen)
      requires Genuine(relay.cfg, k.track) && M.Enabled(relay.cfg, k.track.conn, e)
      modifies relay, k, k.server, k.remote, k.query
      ensures Homes() && Roster() && Leads(relay.cfg, old(k.track).conn, e, c')
      ensures k.Shows(c') && relay.OnlyTouches(k)
      ensures k.LetGo(old(k.server), old(k.remote), old(k.query))
    {
      c' := Perform(relay, t, e, k);
      forall j | j in conns && j != k
        ensures relay.Booked(j)
      {
        assert old(relay.Booked(j));
      }
    }

    /** The callback leaves every other connection showing what it showed. */
    method DispatchAlone(t: Target, e: M.Event, ghost k: Connection) returns (ghost c': M.Conn)
      requires Homes() && Roster() && k in conns && k.Shows(k.track.conn) && OthersShow(k)
      requires k == t.Home() && t.Live() && t.Fits(e) && SameSetting(e, relay.fastOpen)
      requires Genuine(relay.cfg, k.track) && M.Enabled(relay.cfg, k.track.conn, e)
      modifies relay, k, k.server, k.remote, k.query
      ensures Homes() && Roster() && Leads(relay.cfg, old(k.track).conn, e, c')
      ensures k.Shows(c') && relay.OnlyTouches(k) && OthersShow(k)
      ensures k.LetGo(old(k.server), old(k.remote), old(k.query))
    {
      c' := DispatchBooked(t, e, k);
      forall j | j in conns && j != k
        ensures j.Shows(j.track.conn)
      {
        assert old(j.Shows(j.track.conn));
      }
    }

    ghost predicate AllGenuine()
      reads this, conns`track
    {
      forall k {:trigger Genuine(relay.cfg, k.track)} :: k in conns ==> Genuine(relay.cfg, k.track)
    }

    /** Write the step into the record of connection k, which already shows it. */
    ghost method Record(k: Connection, e: M.Event, c': M.Conn)
      requires k in conns && Leads(relay.cfg, k.track.conn, e, c')
      requires Homes() && Roster() && AllGenuine() && k.Shows(c') && OthersShow(k)
      modifies k`track
      ensures Valid() && k.track == Next(old(k.track), e, c')
    {
      NextGenuine(relay.cfg, k.track, e, c');
      k.track := Next(k.track, e, c');
    }

    /** Whichever callback fires next: the whole process keeps its invariant, and
        exactly the connection it belongs to makes that step. What it frees is left
        alone. */
    method Fire(t: Target, e: M.Event)
      requires Valid() && t.Home() in conns && t.Live() && t.Fits(e)
      requires M.Enabled(relay.cfg, t.Home().track.conn, e) && SameSetting(e, relay.fastOpen)
      modifies relay, t.Home(), t.Home().server, t.Home().remote, t.Home().query
      ensures Valid() && Stepped(t.Home(), e) && t.Home().NoneForeign()
      ensures t.Home().LetGo(old(t.Home().server), old(t.Home().remote), old(t.Home().query))
      ensures relay.connections <= old(relay.connections)
    {
      ghost var k := t.Home();
      ghost var c' := DispatchAlone(t, e, k);
      Record(k, e, c');
    }

    /** The new server, on the lists. */
    method Enlist(ghost t: Track, e: M.CipherCtx, d: M.CipherCtx) returns (s: Server)
      requires Homes() && Roster() && t.conn == M.Accepted(relay.cfg, e, d)
      requires forall j :: j in conns ==> j.Shows(j.track.conn)
      modifies this, relay
      ensures fresh(s) && fresh(s.home) && conns == old(conns) + {s.home}
      ensures s in relay.connections && s.home.track == t
      ensures Homes() && Roster()
      ensures forall j :: j in conns ==> j.Shows(j.track.conn)
    {
      var k := new Connection(t);
      s := relay.AcceptCb(k, e, d);
      conns := conns + {k};
      forall j | j in conns && j != k
        ensures j.Shows(j.track.conn)
      {
        assert old(j.Shows(j.track.conn));
      }
    }

    /** accept_cb: a client the ACL lets in starts a run of its own. */
    method Accept(e: M.CipherCtx, d: M.CipherCtx) returns (s: Server)
      requires Valid() && 2 <= relay.cfg.cap
      modifies this, relay
      ensures Valid() && fresh(s) && fresh(s.home) && conns == old(conns) + {s.home}
      ensures s in relay.connections && s.home.track == Track(e, d, [], M.Accepted(relay.cfg, e, d))
    {
      ghost var t := Track(e, d, [], M.Accepted(relay.cfg, e, d));
      s := Enlist(t, e, d);
      GenuineStart(relay.cfg, e, d);
    }

    /** Ownership in every reachable memory: the two ends of each link agree, no
        live object points to a freed one, and the counters count. */
    lemma Ownership()
      requires Valid()
      ensures forall s, r :: s in relay.connections && r in relay.remotes ==> (s.remote == r <==> r.server == s)
      ensures forall s :: s in relay.connections && s.remote != null ==> s.remote in relay.remotes
      ensures forall r :: r in relay.remotes && r.server != null ==> r.server in relay.connections
      ensures forall k, s :: k in conns && k.query != null && s in relay.connections ==>
                (s.query == k.query <==> k.query.server == s)
      ensures forall s :: s in relay.connections && s.query != null ==> s.home in conns && s.home.query == s.query
      ensures forall k :: k in conns && k.query != null && k.query.server != null ==>
                k.query.server in relay.connections
      ensures forall s :: s in relay.connections ==>
                && s.left.None? && (s.remote != null ==> s.remote.left.None?)
                && (s.query != null ==> s.query.left.None?)
      ensures forall r :: r in relay.remotes ==> r.left.None? && (r.server != null ==> r.server.left.None?)
      ensures forall k :: k in conns && k.query != null ==>
                k.query.left.None? && (k.query.server != null ==> k.query.server.left.None?)
      ensures relay.verbose ==> relay.serverConn == |relay.connections| && relay.remoteConn == |relay.remotes|
    {
      forall s | s in relay.connections
        ensures s.home in conns && s.home.server == s && s.home.Shows(s.home.track.conn)
      {
      }
      forall r | r in relay.remotes
        ensures r.home in conns && r.home.remote == r && r.home.Shows(r.home.track.conn)
      {
      }
    }

    /** One round of free_connections. */
    method FreeOne(s: Server)
      requires Valid() && s in relay.connections
      modifies relay, s.home, s, s.remote, s.query
      ensures Valid() && conns == old(conns) && s.home.NoneForeign()
      ensures s.home.server == null && s.home.remote == null && s.home.io == old(s.home.io)
      ensures relay.connections <= old(relay.connections) - {s}
    {
      ghost var c := s.home.track.conn;
      GenuineInv(relay.cfg, s.home.track);
      assert s.home.Shows(c);
      Fire(OnShutdown(s), M.Timeout);
      assert Look(c);
      assert s.home.Shows(s.home.track.conn);
    }

    /** free_connections ends with no server and no remote of a server; it leaves
        exactly the remotes that had already lost theirs, and sends nothing. */
    method FreeConnections()
      requires Valid()
      modifies relay, conns
      modifies set k | k in conns :: k.server
      modifies set k | k in conns :: k.remote
      modifies set k | k in conns :: k.query
      ensures Valid() && conns == old(conns) && relay.connections == {}
      ensures forall k :: k in conns ==>
                && k.server == null && k.io == old(k.io)
                && k.remote == (if old(k.server) == null then old(k.remote) else null)
    {
      while relay.connections != {}
        invariant Valid() && conns == old(conns)
        invariant forall k :: k in conns ==> k.Kept() || k.Closed()
        decreases relay.connections
      {
        var s :| s in relay.connections;
        FreeOne(s);
      }
    }
  }
}
