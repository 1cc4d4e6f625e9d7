/** The objects of shadowsocks_server.c and the callbacks that change them. Every
    callback performs exactly one step of RelayMachine on its own connection and
    never follows a pointer to a freed object. */
module RelayHeap {
  import opened Octets
  import opened RelayHeader
  import M = RelayMachine
  import I = RelayInvariant

  /** server_t. Until it is freed, `left` is None; then its memory holds anything, and
      `left` is what free_server left there. Every access goes through At(). */
  class Server {
    ghost const home: Connection
    ghost var left: Option<(M.Server, Remote?, Query?)>
    var stage: M.Stage
    var recvIo: bool
    var sendIo: bool
    var timer: bool
    var frag: nat
    var buf: M.Buffer
    var eCtx: M.CipherCtx
    var dCtx: M.CipherCtx
    var remote: Remote?
    var query: Query?

    ghost function View(): M.Server
      reads this
    {
      M.Server(stage, recvIo, sendIo, timer, frag, buf, eCtx, dCtx)
    }

    /** The server behind the pointer, which must not be dangling. */
    function At(): Server
      requires left.None?
      reads this`left
    {
      this
    }

    /** Freed, and not touched since. */
    ghost predicate Gone()
      reads this
    {
      left == Some((View(), remote, query))
    }

    constructor (ghost home: Connection, cap: nat, e: M.CipherCtx, d: M.CipherCtx)
      ensures this.home == home && left.None? && remote == null && query == null
      ensures View() == M.Server(M.Init, false, false, false, 0, M.BlankBuffer(cap), e, d)
    {
      this.home := home;
      left := None;
      stage, recvIo, sendIo, timer, frag := M.Init, false, false, false, 0;
      buf, eCtx, dCtx := M.BlankBuffer(cap), e, d;
      remote, query := null, null;
    }

    /** ss_free: the memory may be used for anything. */
    method Free()
      requires left.None?
      modifies this
      ensures Gone()
    {
      stage, recvIo, sendIo, timer, frag, buf, eCtx, dCtx, remote, query := *, *, *, *, *, *, *, *, *, *;
      left := Some((View(), remote, query));
    }
  }

  /** remote_t. */
  class Remote {
    ghost const home: Connection
    ghost var left: Option<(M.Remote, Server?)>
    var recvIo: bool
    var sendIo: bool
    var connected: bool
    var replied: bool
    var prompt: bool
    var buf: M.Buffer
    var server: Server?

    ghost function View(): M.Remote
      reads this
    {
      M.Remote(recvIo, sendIo, connected, replied, prompt, buf)
    }

    function At(): Remote
      requires left.None?
      reads this`left
    {
      this
    }

    ghost predicate Gone()
      reads this
    {
      left == Some((View(), server))
    }

    constructor (ghost home: Connection, cfg: M.Config)
      ensures this.home == home && left.None? && server == null
      ensures View() == M.NewRemote(cfg)
    {
      this.home := home;
      left := None;
      recvIo, sendIo, connected, replied, prompt := false, false, false, false, true;
      buf := M.BlankBuffer(cfg.cap);
      server := null;
    }

    method Free()
      requires left.None?
      modifies this
      ensures Gone()
    {
      recvIo, sendIo, connected, replied, prompt, buf, server := *, *, *, *, *, *, *;
      left := Some((View(), server));
    }
  }

  /** query_t, with what resolv_start was asked for. */
  class Query {
    ghost const home: Connection
    ghost var left: Option<(M.Query, Server?)>
    ghost var answered: bool
    var target: M.Target
    var server: Server?

    ghost function View(): M.Query
      reads this
    {
      M.Query(answered, target)
    }

    function At(): Query
      requires left.None?
      reads this`left
    {
      this
    }

    ghost predicate Gone()
      reads this
    {
      left == Some((View(), server))
    }

    constructor (ghost home: Connection, s: Server, target: M.Target)
      ensures this.home == home && left.None? && server == s && View() == M.Query(false, target)
    {
      this.home := home;
      left := None;
      answered := false;
      this.target := target;
      server := s;
    }

    method Free()
      requires left.None?
      modifies this
      ensures Gone()
    {
      target, server := *, *;
      left := Some((View(), server));
    }
  }

  /** The run of one connection: the cipher contexts it was accepted with, the
      events it has seen, and the machine state they lead to. */
  datatype Track = Track(e0: M.CipherCtx, d0: M.CipherCtx, trace: seq<M.Event>, conn: M.Conn)

  /** What belongs together: the objects of one connection that are allocated and
      not yet freed (null stands for none), and what the kernel has seen on its two
      sockets. It exists only for the proof. */
  class Connection {
    ghost var server: Server?
    ghost var remote: Remote?
    ghost var query: Query?
    ghost var io: M.Io
    ghost var track: Track

    constructor (ghost track: Track)
      ensures server == null && remote == null && query == null && io == M.QUIET
      ensures this.track == track
    {
      server, remote, query, io := null, null, null, M.QUIET;
      this.track := track;
    }

    /** No object has joined but newly allocated ones. */
    twostate predicate NoneForeign()
      reads this
    {
      && (server == null || server == old(server))
      && (remote == null || remote == old(remote) || fresh(remote))
      && (query == null || query == old(query) || fresh(query))
    }

    /** Nothing of it has changed. */
    twostate predicate Kept()
      reads this
    {
      server == old(server) && remote == old(remote) && query == old(query) && io == old(io)
    }

    /** It has lost both ends, and sent nothing more. */
    twostate predicate Closed()
      reads this
    {
      old(server) != null && server == null && remote == null && io == old(io)
    }

    /** Of the objects s, r and q, those that do not belong to the connection any more
        were freed, and are as free_server, free_remote or resolv_free_cb left them. */
    ghost predicate LetGo(s: Server?, r: Remote?, q: Query?)
      reads this`server, this`remote, this`query, s, r, q
    {
      && (s != null && s != server ==> s.Gone())
      && (r != null && r != remote ==> r.Gone())
      && (q != null && q != query ==> q.Gone())
    }

    /** The two ends of every link agree, no pointer leads to a freed object, and
        the objects are in state `c`. */
    ghost predicate Shows(c: M.Conn)
      reads this`server, this`remote, this`query, this`io, server, remote, query
    {
      && c.io == io
      && c.server == (if server == null then None else Some(server.View()))
      && c.remote == (if remote == null then None else Some(remote.View()))
      && c.query == (if query == null then None else Some(query.View()))
      && (server != null ==>
            server.left.None? && server.home == this && server.remote == remote && server.query == query)
      && (remote != null ==> remote.left.None? && remote.home == this && remote.server == server)
      && (query != null ==> query.left.None? && query.home == this && query.server == server)
    }
  }

  /** The process-wide part: settings, the list of connections, the counters, and
      for the proof the set of allocated remotes. */
  class Relay {
    const cfg: M.Config
    const verbose: bool
    var fastOpen: bool
    var serverConn: int
    var remoteConn: int
    var connections: set<Server>
    ghost var remotes: set<Remote>

    constructor (cfg: M.Config, verbose: bool, fastOpen: bool)
      ensures this.cfg == cfg && this.verbose == verbose && this.fastOpen == fastOpen
      ensures connections == {} && remotes == {} && serverConn == 0 && remoteConn == 0
    {
      this.cfg, this.verbose, this.fastOpen := cfg, verbose, fastOpen;
      connections, remotes, serverConn, remoteConn := {}, {}, 0, 0;
    }

    ghost predicate Counted()
      reads this
    {
      verbose ==> serverConn == |connections| && remoteConn == |remotes|
    }

    ghost predicate Booked(k: Connection)
      reads this`connections, this`remotes, k`server, k`remote
    {
      && (k.server != null ==> k.server in connections)
      && (k.remote != null ==> k.remote in remotes)
    }

    /** Connection k is in state c, and its objects are on the books. */
    ghost predicate Holds(k: Connection, c: M.Conn)
      reads this, k, k.server, k.remote, k.query
    {
      Counted() && k.Shows(c) && Booked(k)
    }

    /** The books of every connection but k are as before. */
    twostate predicate OnlyTouches(k: Connection)
      reads this, k
    {
      && k.track == old(k.track)
      && k.NoneForeign()
      && connections <= old(connections)
      && (forall s :: s in old(connections) && s != old(k.server) ==> s in connections)
      && (k.server == null ==> old(k.server) !in connections)
      && (forall r :: r in old(remotes) && r != old(k.remote) ==> r in remotes)
      && (forall r :: r in remotes && r != k.remote ==> r in old(remotes) && r != old(k.remote))
    }

    // -------------------------------------------------------------- freeing

    /** close_and_free_remote and free_remote. */
    method CloseAndFreeRemote(r: Remote?)
      requires Counted()
      requires r != null ==>
                 && r.left.None? && r in remotes && (r.home.remote == null || r.home.remote == r)
                 && (r.server != null ==> r.server == r.home.server && r.server.left.None?)
      modifies this`remotes, this`remoteConn, r
      modifies (if r == null then {} else {r.home})`remote, (if r == null then {} else {r.server})`remote
      ensures Counted()
      ensures r == null ==> remotes == old(remotes)
      ensures r != null ==>
                && remotes == old(remotes) - {r} && r.home.remote == null && r.Gone()
                && (old(r.server) != null ==> old(r.server).remote == null)
    {
      if r != null {
        r.At().sendIo := false;
        r.At().recvIo := false;
        var server := r.At().server;
        if server != null {
          server.At().remote := null;
        }
        remotes := remotes - {r};
        r.home.remote := null;
        r.Free();
        if verbose {
          remoteConn := remoteConn - 1;
        }
      }
    }

    /** close_and_free_server and free_server. */
    method CloseAndFreeServer(s: Server)
      requires Counted() && s.left.None? && s in connections && s == s.home.server
      requires s.remote != null ==> s.remote == s.home.remote && s.remote.left.None?
      requires s.query != null ==> s.query == s.home.query && s.query.left.None?
      modifies this`connections, this`serverConn, s, s.home`server
      modifies (if s.remote == null then {} else {s.remote})`server
      modifies (if s.query == null then {} else {s.query})`server
      ensures Counted()
      ensures connections == old(connections) - {s} && s.home.server == null && s.Gone()
      ensures old(s.remote) != null ==> old(s.remote).server == null
      ensures old(s.query) != null ==> old(s.query).server == null
    {
      var query := s.At().query;
      if query != null {
        query.At().server := null;
        s.At().query := null;
      }
      s.At().sendIo := false;
      s.At().recvIo := false;
      s.At().timer := false;
      connections := connections - {s};
      var remote := s.At().remote;
      if remote != null {
        remote.At().server := null;
      }
      s.home.server := null;
      s.Free();
      if verbose {
        serverConn := serverConn - 1;
      }
    }

    /** Both ends of a connection, the remote first. */
    method CloseBoth(s: Server, ghost c: M.Conn)
      requires s == s.home.server && Holds(s.home, c)
      modifies this, s.home, s, s.remote, s.query
      ensures Holds(s.home, M.CloseBoth(c)) && OnlyTouches(s.home)
      ensures s.home.LetGo(old(s.home.server), old(s.home.remote), old(s.home.query))
      ensures fastOpen == old(fastOpen)
    {
      CloseAndFreeRemote(s.At().remote);
      CloseAndFreeServer(s);
    }

    /** The client side alone; a remote or query that is left loses its back-pointer. */
    method CloseServer(s: Server, ghost c: M.Conn)
      requires s == s.home.server && Holds(s.home, c)
      modifies this, s.home, s, s.remote, s.query
      ensures Holds(s.home, M.CloseServer(c)) && OnlyTouches(s.home)
      ensures s.home.LetGo(old(s.home.server), old(s.home.remote), old(s.home.query))
      ensures fastOpen == old(fastOpen)
    {
      CloseAndFreeServer(s);
    }

    // -------------------------------------------------------------- callbacks

    /** 998-1010: the kernel has taken some of server->buf, or all of it. */
    method AdvanceServer(s: Server, r: Remote, k: nat, ghost c: M.Conn)
      requires s == s.home.server && r == s.home.remote && Holds(s.home, c)
      requires s.buf.InBounds() && s.buf.len != 0
      modifies s.home`io, s, r`recvIo
      ensures Holds(s.home, M.OnServerSend(c, M.Sent(k)))
    {
      var b := s.At().buf;
      var n := M.Min(k, b.len);
      s.home.io := s.home.io.(toClient := s.home.io.toClient + b.data[b.idx..b.idx + n]);
      if n < b.len {
        s.At().buf := b.(idx := b.idx + n, len := b.len - n);
      } else {
        s.At().buf := b.(len := 0, idx := 0);
        s.At().sendIo := false;
        r.At().recvIo := true;
      }
    }

    method ServerSendCb(s: Server, send: M.Send, ghost c: M.Conn)
      requires s == s.home.server && Holds(s.home, c)
      requires s.sendIo && I.Watchers(c) && I.Downstream(c)
      modifies this, s.home, s, s.remote, s.query
      ensures Holds(s.home, M.OnServerSend(c, send)) && OnlyTouches(s.home)
      ensures s.home.LetGo(old(s.home.server), old(s.home.remote), old(s.home.query))
      ensures fastOpen == old(fastOpen)
    {
      var remote := s.At().remote;
      if remote == null {
        assert false; // the "invalid server" branch
      } else if s.At().buf.len == 0 {
        CloseBoth(s, c);
      } else {
        match send {
          case SendError => CloseBoth(s, c);
          case SendAgain =>
          case Sent(k) => AdvanceServer(s, remote, k, c);
        }
      }
    }

    method ServerTimeoutCb(s: Server, ghost c: M.Conn)
      requires s == s.home.server && Holds(s.home, c)
      modifies this, s.home, s, s.remote, s.query
      ensures Holds(s.home, M.CloseBoth(c)) && OnlyTouches(s.home)
      ensures s.home.LetGo(old(s.home.server), old(s.home.remote), old(s.home.query))
      ensures fastOpen == old(fastOpen)
    {
      CloseBoth(s, c);
    }

    /** 1162-1181; `closed` is the return at 1174. */
    method SendDown(r: Remote, s: Server, send: M.Send, ghost c: M.Conn) returns (closed: bool)
      requires r == r.home.remote && s == r.home.server && Holds(r.home, c)
      requires s.buf.len <= |s.buf.data|
      modifies this, r.home, r, s, s.query
      ensures Holds(r.home, M.SendDown(c, send)) && OnlyTouches(r.home)
      ensures r.home.LetGo(old(r.home.server), old(r.home.remote), old(r.home.query))
      ensures closed == send.SendError? && fastOpen == old(fastOpen)
      ensures !closed ==> r.home.remote == r && r.home.server == s
    {
      closed := false;
      match send {
        case SendError =>
          CloseBoth(s, c);
          closed := true;
        case SendAgain =>
          s.At().buf := s.At().buf.(idx := 0);
          r.At().recvIo := false;
          s.At().sendIo := true;
        case Sent(k) =>
          var b := s.At().buf;
          var n := M.Min(k, b.len);
          r.home.io := r.home.io.(toClient := r.home.io.toClient + b.data[0..n]);
          if n < b.len {
            s.At().buf := b.(len := b.len - n, idx := n);
            r.At().recvIo := false;
            s.At().sendIo := true;
          }
      }
    }

    /** One round of free_connections: the server first, the remote after it. */
    method CloseForShutdown(s: Server, ghost c: M.Conn)
      requires s == s.home.server && Holds(s.home, c)
      modifies this, s.home, s, s.remote, s.query
      ensures Holds(s.home, M.CloseBoth(c)) && OnlyTouches(s.home)
      ensures s.home.LetGo(old(s.home.server), old(s.home.remote), old(s.home.query))
      ensures fastOpen == old(fastOpen)
    {
      var remote := s.At().remote;
      CloseAndFreeServer(s);
      CloseAndFreeRemote(remote);
    }

    /** setsockopt of TCP_NODELAY to 0 on both sockets. */
    method StopPrompt(s: Server, r: Remote)
      requires s.left.None? && r.left.None?
      modifies r`prompt
      ensures !r.prompt
    {
      var server, remote := s.At(), r.At(); // server->fd and remote->fd
      remote.prompt := false;
    }

    /** 1183-1189, with both ends still allocated. */
    method Respond(r: Remote, s: Server, ghost c: M.Conn)
      requires r == r.home.remote && s == r.home.server && Holds(r.home, c)
      modifies r
      ensures Holds(r.home, M.Responded(cfg, c))
    {
      if !r.At().replied && !cfg.noDelay {
        StopPrompt(s, r);
      }
      r.At().replied := true;
    }

    /** The chunk goes through the cipher into server->buf. */
    method Encrypt(s: Server, bytes: Bytes, ghost c: M.Conn) returns (ok: bool, ghost c1: M.Conn)
      requires s == s.home.server && Holds(s.home, c)
      modifies s, s.home`io
      ensures Holds(s.home, c1) && s.home.NoneForeign() && s.left.None?
      ensures ok == cfg.enc(old(s.eCtx), bytes).result.CryptoOk? && s.buf.len <= |s.buf.data|
      ensures c1 == M.Encrypted(cfg, c, bytes)
    {
      s.At().buf := s.At().buf.Write(bytes).(len := |bytes|);
      var step := cfg.enc(s.At().eCtx, bytes);
      s.home.io := s.home.io.(fromRemote := s.home.io.fromRemote + [bytes]);
      s.At().eCtx := step.ctx;
      ok := step.result.CryptoOk?;
      if ok {
        s.At().buf := s.At().buf.Write(step.result.out).(len := |step.result.out|);
      }
      c1 := M.Encrypted(cfg, c, bytes);
    }

    /** 1162-1189. */
    method PassOn(r: Remote, s: Server, send: M.Send, ghost c: M.Conn)
      requires r == r.home.remote && s == r.home.server && Holds(r.home, c)
      requires s.buf.len <= |s.buf.data|
      modifies this, r.home, r, s, s.query
      ensures Holds(r.home, M.Responded(cfg, M.SendDown(c, send))) && OnlyTouches(r.home)
      ensures r.home.LetGo(old(r.home.server), old(r.home.remote), old(r.home.query))
      ensures fastOpen == old(fastOpen)
    {
      var closed := SendDown(r, s, send, c);
      if !closed {
        Respond(r, s, M.SendDown(c, send));
      }
    }

    /** 1142-1189. */
    method RelayFromRemote(r: Remote, s: Server, bytes: Bytes, send: M.Send, ghost c: M.Conn)
      requires r == r.home.remote && s == r.home.server && Holds(r.home, c)
      modifies this, r.home, r, s, s.query
      ensures Holds(r.home, M.RemoteData(cfg, c, bytes, send)) && OnlyTouches(r.home)
      ensures r.home.LetGo(old(r.home.server), old(r.home.remote), old(r.home.query))
      ensures fastOpen == old(fastOpen)
    {
      var ok, c1 := Encrypt(s, bytes, c);
      if ok {
        PassOn(r, s, send, c1);
      } else {
        CloseBoth(s, c1);
      }
    }

    method RemoteRecvCb(r: Remote, recv: M.Recv, send: M.Send, ghost c: M.Conn)
      requires r == r.home.remote && Holds(r.home, c)
      modifies this, r.home, r, r.home.server, r.home.query
      ensures Holds(r.home, M.OnRemoteRecv(cfg, c, recv, send)) && OnlyTouches(r.home)
      ensures r.home.LetGo(old(r.home.server), old(r.home.remote), old(r.home.query))
      ensures fastOpen == old(fastOpen)
    {
      var server := r.At().server;
      if server == null {
        CloseAndFreeRemote(r);
        return;
      }
      match recv {
        case Closed => CloseBoth(server, c);
        case RecvError => CloseBoth(server, c);
        case RecvAgain =>
        case Data(bytes) =>
          if server.At().stage == M.Stop {
            server.At().buf := server.At().buf.Write(bytes);
          } else {
            RelayFromRemote(r, server, bytes, send, c);
          }
      }
    }

    /** 1262-1302. */
    method FlushRemote(r: Remote, s: Server, send: M.Send, ghost c: M.Conn)
      requires r == r.home.remote && s == r.home.server && Holds(r.home, c)
      requires r.buf.InBounds()
      modifies this, r.home, r, s, s.query
      ensures Holds(r.home, M.FlushRemote(c, send)) && OnlyTouches(r.home)
      ensures r.home.LetGo(old(r.home.server), old(r.home.remote), old(r.home.query))
      ensures fastOpen == old(fastOpen)
    {
      if r.At().buf.len == 0 {
        CloseBoth(s, c);
        return;
      }
      match send {
        case SendError => CloseBoth(s, c);
        case SendAgain =>
        case Sent(k) => AdvanceRemote(r, s, k, c);
      }
    }

    /** 1279-1300: the kernel has taken some of remote->buf, or all of it. */
    method AdvanceRemote(r: Remote, s: Server, k: nat, ghost c: M.Conn)
      requires r == r.home.remote && s == r.home.server && Holds(r.home, c)
      requires r.buf.InBounds() && r.buf.len != 0
      modifies r.home`io, r, s
      ensures Holds(r.home, M.FlushRemote(c, M.Sent(k)))
    {
      var b := r.At().buf;
      var n := M.Min(k, b.len);
      r.home.io := r.home.io.(toRemote := r.home.io.toRemote + b.data[b.idx..b.idx + n]);
      if n < b.len {
        r.At().buf := b.(len := b.len - n, idx := b.idx + n);
      } else {
        r.At().buf := b.(len := 0, idx := 0);
        r.At().sendIo := false;
        s.At().recvIo := true;
        if s.At().stage != M.Stream {
          s.At().stage := M.Stream;
          r.At().recvIo := true;
        }
      }
    }

    /** 1247-1250: connected, with nothing to send. */
    method StartStream(r: Remote, s: Server, ghost c: M.Conn)
      requires r == r.home.remote && s == r.home.server && Holds(r.home, c) && r.buf.len == 0
      modifies r`sendIo, r`recvIo, s`stage, s`recvIo
      ensures Holds(r.home, c.(server := Some(c.server.value.(stage := M.Stream, recvIo := true)),
                               remote := Some(c.remote.value.(sendIo := false, recvIo := true))))
    {
      s.At().stage := M.Stream;
      r.At().sendIo := false;
      s.At().recvIo := true;
      r.At().recvIo := true;
    }

    method RemoteSendCb(r: Remote, peerOk: bool, send: M.Send, ghost c: M.Conn)
      requires r == r.home.remote && Holds(r.home, c)
      requires r.sendIo && I.Watchers(c) && I.Upstream(c)
      modifies this, r.home, r, r.home.server, r.home.query
      ensures Holds(r.home, M.OnRemoteSend(c, peerOk, send)) && OnlyTouches(r.home)
      ensures r.home.LetGo(old(r.home.server), old(r.home.remote), old(r.home.query))
      ensures fastOpen == old(fastOpen)
    {
      var server := r.At().server;
      if server == null {
        assert false; // the "invalid server" branch
      } else if !r.At().connected && !peerOk {
        CloseBoth(server, c);
      } else {
        ghost var c1 := c.(remote := Some(c.remote.value.(connected := true)));
        if !r.At().connected {
          r.At().connected := true;
          if r.At().buf.len == 0 {
            StartStream(r, server, c1);
            return;
          }
        }
        FlushRemote(r, server, send, c1);
      }
    }

    // -------------------------------------------------------------- connect_to_remote

    /** 505-594: the fast-open attempt sends what the kernel takes of the payload. */
    method FastOpen(s: Server, target: M.Target, dial: M.Dial, ghost c: M.Conn)
      requires s == s.home.server && Holds(s.home, c) && s.buf.InBounds()
      modifies this`fastOpen, s.home`io, s`buf
      ensures fastOpen == (old(fastOpen) && !dial.fo.FoUnsupported?) && s.buf.InBounds()
      ensures Holds(s.home, M.Launched(c, target, dial, old(fastOpen)))
    {
      s.home.io := s.home.io.(dialled := s.home.io.dialled + [target]);
      assert s.home.io.toRemote + [] == s.home.io.toRemote;
      if fastOpen {
        match dial.fo {
          case FoInProgress =>
          case FoUnsupported => fastOpen := false;
          case FoError =>
          case FoSent(k) =>
            var b := s.At().buf;
            var n := M.Min(k, b.len);
            s.home.io := s.home.io.(toRemote := s.home.io.toRemote + b.data[b.idx..b.idx + n]);
            s.At().buf := b.(idx := b.idx + n, len := b.len - n);
        }
      }
    }

    /** Without fast open nothing has been sent yet. */
    lemma NothingLaunched(c: M.Conn, target: M.Target, dial: M.Dial, fastOpen: bool)
      requires c.server.Some? && dial.socketOk && M.FastOpenSent(dial, fastOpen, c.server.value.buf.len) == 0
      ensures M.Launched(c, target, dial, fastOpen) == M.Refused(c, target, dial)
    {
      var b := c.server.value.buf;
      assert c.io.toRemote + [] == c.io.toRemote;
      assert M.Slice(b.data, b.idx, 0) == [];
    }

    /** new_remote: on the books, linked to nothing. */
    method AddRemote(ghost k: Connection) returns (r: Remote)
      requires Counted()
      modifies this`remotes, this`remoteConn
      ensures Counted() && fresh(r) && remotes == old(remotes) + {r}
      ensures r.home == k && r.left.None? && r.server == null && r.View() == M.NewRemote(cfg)
    {
      r := new Remote(k, cfg);
      remotes := remotes + {r};
      if verbose {
        remoteConn := remoteConn + 1;
      }
    }

    /** 601: a remote that was never linked goes again. */
    method DropRemote(r: Remote, ghost k: Connection, ghost c: M.Conn)
      requires Holds(k, c) && k.remote == null
      requires r in remotes && r.home == k && r.left.None? && r.server == null
      modifies this`remotes, this`remoteConn, r, k`remote
      ensures Holds(k, c) && k.remote == null && remotes == old(remotes) - {r} && r.Gone()
    {
      CloseAndFreeRemote(r);
    }

    /** connect_to_remote. A remote whose connect fails at once is freed again, and left
        alone: `gone`. */
    method ConnectToRemote(s: Server, target: M.Target, dial: M.Dial, ghost c: M.Conn)
      returns (r: Remote?, ghost gone: Remote?)
      requires s == s.home.server && s.home.remote == null && Holds(s.home, c) && s.buf.InBounds()
      modifies this`fastOpen, this`remotes, this`remoteConn, s.home`remote, s.home`io, s`buf
      ensures fastOpen == M.FastOpenAfter(dial, old(fastOpen)) && (r != null <==> M.DialOk(dial, old(fastOpen)))
      ensures s.home.remote == null && s.buf.InBounds()
      ensures r == null ==>
                && Holds(s.home, M.Refused(c, target, dial)) && remotes == old(remotes)
                && (dial.socketOk ==> gone != null && fresh(gone) && gone.Gone())
      ensures r != null ==>
                && Holds(s.home, M.Launched(c, target, dial, old(fastOpen))) && remotes == old(remotes) + {r}
                && fresh(r) && r.home == s.home && r.left.None? && r.server == null && r.View() == M.NewRemote(cfg)
    {
      r, gone := null, null;
      if !dial.socketOk {
        assert c.io.dialled + [] == c.io.dialled;
        return;
      }
      r := AddRemote(s.home);
      FastOpen(s, target, dial, c);
      if !fastOpen && !dial.connectOk {
        NothingLaunched(c, target, dial, old(fastOpen));
        DropRemote(r, s.home, M.Refused(c, target, dial));
        return null, r;
      }
    }

    /** 932-948: link the remote and hand the first payload over. */
    method LinkRemote(s: Server, r: Remote, ghost c: M.Conn)
      requires s == s.home.server && s.home.remote == null && Holds(s.home, c) && s.buf.InBounds()
      requires r in remotes && r.home == s.home && r.left.None? && r.server == null && r.View() == M.NewRemote(cfg)
      modifies s.home`remote, s`remote, s`buf, r
      ensures Holds(s.home, M.Linked(cfg, c)) && s.home.remote == r
    {
      s.home.remote := r;
      s.At().remote := r;
      r.At().server := s;
      var b := s.At().buf;
      if b.len > 0 {
        r.At().buf := r.At().buf.Write(b.data[b.idx..b.idx + b.len]);
        r.At().buf := r.At().buf.(len := b.len, idx := 0);
        s.At().buf := b.(len := 0, idx := 0);
      }
      r.At().sendIo := true;
    }

    /** connect_to_remote and, if it succeeds, the hand-over. */
    method DialAndHandOver(s: Server, target: M.Target, dial: M.Dial, ghost c: M.Conn) returns (r: Remote?)
      requires s == s.home.server && s.home.remote == null && Holds(s.home, c) && s.buf.InBounds()
      modifies this, s.home, s, s.query
      ensures Holds(s.home, M.Dialled(cfg, c, target, dial, old(fastOpen))) && OnlyTouches(s.home)
      ensures s.home.LetGo(old(s.home.server), old(s.home.remote), old(s.home.query))
      ensures fastOpen == M.FastOpenAfter(dial, old(fastOpen))
      ensures s.home.remote == r && (r != null ==> fresh(r) && s.home.server == s)
    {
      ghost var gone;
      r, gone := ConnectToRemote(s, target, dial, c);
      if r == null {
        CloseServer(s, M.Refused(c, target, dial));
      } else {
        LinkRemote(s, r, M.Launched(c, target, dial, old(fastOpen)));
      }
    }

    // -------------------------------------------------------------- name resolution

    method ResolvCb(q: Query, found: bool, dial: M.Dial, ghost c: M.Conn)
      requires q == q.home.query && Holds(q.home, c) && !q.answered
      requires I.Watchers(c) && I.Upstream(c)
      modifies this, q.home, q, q.home.server
      ensures Holds(q.home, M.OnResolved(cfg, c, found, dial, old(fastOpen))) && OnlyTouches(q.home)
      ensures q.home.LetGo(old(q.home.server), old(q.home.remote), old(q.home.query))
      ensures c.server.Some? && found ==> fastOpen == M.FastOpenAfter(dial, old(fastOpen))
      ensures c.server.None? || !found ==> fastOpen == old(fastOpen)
    {
      q.answered := true;
      ghost var c1 := c.(query := Some(c.query.value.(answered := true)));
      var server := q.At().server;
      if server == null {
        return;
      }
      if !found {
        CloseServer(server, c1);
      } else {
        var r := DialAndHandOver(server, q.At().target, dial, c1);
      }
    }

    method ResolvFreeCb(q: Query, ghost c: M.Conn)
      requires q == q.home.query && Holds(q.home, c)
      modifies this, q.home, q, q.home.server
      ensures Holds(q.home, c.(query := None)) && OnlyTouches(q.home)
      ensures q.home.LetGo(old(q.home.server), old(q.home.remote), old(q.home.query))
      ensures fastOpen == old(fastOpen)
    {
      var server := q.At().server;
      if server != null {
        server.At().query := null;
      }
      q.home.query := null;
      q.Free();
    }

    // -------------------------------------------------------------- server_recv_cb

    /** 765-782. */
    method SendUp(s: Server, r: Remote, send: M.Send, ghost c: M.Conn)
      requires r == s.home.remote && s == s.home.server && Holds(s.home, c)
      requires r.buf.len <= |r.buf.data|
      modifies this, s.home, r, s, s.query
      ensures Holds(s.home, M.SendUp(c, send)) && OnlyTouches(s.home)
      ensures s.home.LetGo(old(s.home.server), old(s.home.remote), old(s.home.query))
      ensures fastOpen == old(fastOpen)
    {
      match send {
        case SendError => CloseBoth(s, c);
        case SendAgain =>
          r.At().buf := r.At().buf.(idx := 0);
          s.At().recvIo := false;
          r.At().sendIo := true;
        case Sent(k) =>
          var b := r.At().buf;
          var n := M.Min(k, b.len);
          s.home.io := s.home.io.(toRemote := s.home.io.toRemote + b.data[0..n]);
          if n < b.len {
            r.At().buf := b.(len := b.len - n, idx := n);
            s.At().recvIo := false;
            r.At().sendIo := true;
          }
      }
    }

    /** The chunk goes through the cipher into remote->buf. */
    method DecryptUp(s: Server, r: Remote, bytes: Bytes, ghost c: M.Conn) returns (result: M.CryptoResult)
      requires r == s.home.remote && s == s.home.server && Holds(s.home, c)
      modifies r`buf, s`dCtx, s.home`io
      ensures var (c1, res) := M.IntoRemote(cfg, c, bytes); Holds(s.home, c1) && result == res
      ensures s.home.track == old(s.home.track) && r.buf.len <= |r.buf.data|
    {
      r.At().buf := r.At().buf.Write(bytes).(len := |bytes|);
      var step := cfg.dec(s.At().dCtx, bytes);
      s.home.io := s.home.io.(fromClient := s.home.io.fromClient + [bytes]);
      s.At().dCtx := step.ctx;
      result := step.result;
      if result.CryptoOk? {
        r.At().buf := r.At().buf.Write(result.out).(len := |result.out|);
      }
    }

    /** 742-783 for a connection in the stream stage. */
    method ServerRecvStream(s: Server, r: Remote, bytes: Bytes, send: M.Send, ghost c: M.Conn)
      requires r == s.home.remote && s == s.home.server && Holds(s.home, c)
      modifies this, s.home, r, s, s.query
      ensures Holds(s.home, M.StreamData(cfg, c, bytes, send)) && OnlyTouches(s.home)
      ensures s.home.LetGo(old(s.home.server), old(s.home.remote), old(s.home.query))
      ensures fastOpen == old(fastOpen)
    {
      var result := DecryptUp(s, r, bytes, c);
      match result {
        case CryptoError => s.At().stage := M.Stop;
        case CryptoNeedMore =>
        case CryptoOk(_) => SendUp(s, r, send, M.IntoRemote(cfg, c, bytes).0);
      }
    }

    /** 924-960. */
    method Establish(s: Server, target: M.Target, needQuery: bool, dial: M.Dial, ghost c: M.Conn)
      requires s == s.home.server && s.home.remote == null && s.home.query == null && Holds(s.home, c)
      requires s.buf.InBounds()
      modifies this, s.home, s
      ensures Holds(s.home, M.Established(cfg, c, target, needQuery, dial, old(fastOpen))) && OnlyTouches(s.home)
      ensures s.home.LetGo(old(s.home.server), old(s.home.remote), old(s.home.query))
      ensures fastOpen == if needQuery then old(fastOpen) else M.FastOpenAfter(dial, old(fastOpen))
    {
      if needQuery {
        s.At().recvIo := false;
        var query := new Query(s.home, s, target);
        s.home.query := query;
        s.At().query := query;
        s.At().stage := M.Resolve;
      } else {
        var r := DialAndHandOver(s, target, dial, c);
        if r != null {
          s.At().recvIo := false;
        }
      }
    }

    /** 784-961. */
    method Handshake(s: Server, verdict: M.HostVerdict, dial: M.Dial, ghost c: M.Conn)
      requires s == s.home.server && s.home.remote == null && s.home.query == null && Holds(s.home, c)
      requires 2 <= |s.buf.data| && s.buf.len <= |s.buf.data|
      modifies this, s.home, s
      ensures var p := Parse(cfg.mask, old(s.buf).data, old(s.buf).len);
              Holds(s.home, M.Handshake(cfg, c, p, verdict, dial, old(fastOpen)))
      ensures OnlyTouches(s.home) && s.home.LetGo(old(s.home.server), old(s.home.remote), old(s.home.query))
      ensures fastOpen == old(fastOpen) || fastOpen == M.FastOpenAfter(dial, old(fastOpen))
    {
      var p := ParseInPlace(cfg.mask, s.At().buf.data, s.At().buf.len);
      if p.Reject? {
        s.At().stage := M.Stop;
      } else if p.address.Domain? && verdict.Blocked? {
        CloseServer(s, c);
      } else if p.address.Domain? && verdict.BadName? {
        s.At().stage := M.Stop;
      } else {
        s.At().buf := s.At().buf.(len := s.At().buf.len - p.offset, idx := p.offset);
        Establish(s, M.Target(p.address, p.port), p.address.Domain? && verdict.NeedsQuery?, dial, I.HeaderOff(c, p));
      }
    }

    /** The chunk goes through the cipher into server->buf. */
    method DecryptFirst(s: Server, bytes: Bytes, ghost c: M.Conn) returns (result: M.CryptoResult)
      requires s == s.home.server && Holds(s.home, c)
      modifies s`buf, s`dCtx, s.home`io
      ensures var (c1, res) := M.IntoServer(cfg, c, bytes); Holds(s.home, c1) && result == res
      ensures s.home.track == old(s.home.track) && s.buf.len <= |s.buf.data| && old(|s.buf.data|) <= |s.buf.data|
    {
      s.At().buf := s.At().buf.Write(bytes).(len := |bytes|);
      var step := cfg.dec(s.At().dCtx, bytes);
      s.home.io := s.home.io.(fromClient := s.home.io.fromClient + [bytes]);
      s.At().dCtx := step.ctx;
      result := step.result;
      if result.CryptoOk? {
        s.At().buf := s.At().buf.Write(result.out).(len := |result.out|);
      }
    }

    /** 742-761 before the stream stage. */
    method ServerRecvFirst(s: Server, bytes: Bytes, verdict: M.HostVerdict, dial: M.Dial, ghost c: M.Conn)
      requires s == s.home.server && s.home.remote == null && s.home.query == null && Holds(s.home, c)
      requires 2 <= |s.buf.data| && s.stage == M.Init
      modifies this, s.home, s
      ensures Holds(s.home, M.FirstData(cfg, c, bytes, verdict, dial, old(fastOpen))) && OnlyTouches(s.home)
      ensures s.home.LetGo(old(s.home.server), old(s.home.remote), old(s.home.query))
      ensures fastOpen == old(fastOpen) || fastOpen == M.FastOpenAfter(dial, old(fastOpen))
    {
      var result := DecryptFirst(s, bytes, c);
      match result {
        case CryptoError => s.At().stage := M.Stop;
        case CryptoNeedMore =>
          if s.At().frag > cfg.maxFrag {
            s.At().stage := M.Stop;
          } else {
            s.At().frag := s.At().frag + 1;
          }
        case CryptoOk(_) => Handshake(s, verdict, dial, M.IntoServer(cfg, c, bytes).0);
      }
    }

    method ServerRecvCb(s: Server, recv: M.Recv, verdict: M.HostVerdict, dial: M.Dial, send: M.Send, ghost c: M.Conn)
      requires s == s.home.server && Holds(s.home, c)
      requires s.recvIo && I.Watchers(c)
      modifies this, s.home, s, s.remote, s.query
      ensures Holds(s.home, M.OnServerRecv(cfg, c, recv, verdict, dial, send, old(fastOpen))) && OnlyTouches(s.home)
      ensures s.home.LetGo(old(s.home.server), old(s.home.remote), old(s.home.query))
      ensures fastOpen == old(fastOpen) || fastOpen == M.FastOpenAfter(dial, old(fastOpen))
    {
      var remote: Remote? := null;
      if s.At().stage == M.Stream {
        remote := s.At().remote;
      }
      if recv.Closed? || recv.RecvError? {
        if remote != null {
          CloseBoth(s, c);
        } else {
          CloseServer(s, c);
        }
      } else if recv.Data? {
        if s.At().stage == M.Stop {
          s.At().buf := s.At().buf.Write(recv.bytes);
        } else if s.At().stage == M.Stream {
          ServerRecvStream(s, remote, recv.bytes, send, c);
        } else if s.At().stage == M.Init {
          ServerRecvFirst(s, recv.bytes, verdict, dial, c);
        } else {
          assert false; // FATAL("server context error")
        }
      }
    }

    // -------------------------------------------------------------- accept_cb

    /** accept_cb for a connection that the ACL lets in, and new_server. */
    method AcceptCb(ghost k: Connection, e: M.CipherCtx, d: M.CipherCtx) returns (s: Server)
      requires Counted() && k.server == null && k.remote == null && k.query == null
      requires k.io == M.QUIET
      modifies this`connections, this`serverConn, k`server
      ensures fresh(s) && s.home == k && k.server == s && connections == old(connections) + {s}
      ensures Holds(k, M.Accepted(cfg, e, d))
    {
      s := new Server(k, cfg.cap, e, d);
      connections := connections + {s};
      k.server := s;
      if verbose {
        serverConn := serverConn + 1;
      }
      s.At().recvIo := true;
      s.At().timer := true;
    }
  }
}
