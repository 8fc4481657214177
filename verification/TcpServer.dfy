/** DR_tcp_server2.py: the two registries of the server module and the sockets it holds open, for one
    thread at a time. A socket is a number that stands for the object and its `id`; numbers are never
    reused. */
module TcpServer {

  const TP_SERVER_PORT := 12345
  const MAX_PORT := 65535 // bind raises OverflowError above it

  /** One round of the open loop: the socket cannot be created, its option cannot be set, it fails later
      (bind, listen, or no client within a second), or a client connects. */
  datatype Attempt = CreateFails | OptionFails | SetupFails | Connects

  /** `Retrying`: the loop has not ended yet. `Unbound`: the except branch reads a variable that was
      never assigned, because the very first socket could not be created. `Overflow`: bind raises for a
      port above 65535, and the except branch does not handle that error. */
  datatype OpenResult = Opened(client: nat) | Retrying | TypeError | ValueError | Unbound | Overflow

  /** 0, -1, or the DR_Error for an argument that is no socket or for a close that raises. */
  datatype CloseResult = Closed | NotOpened | WrongType | RuntimeError

  function CloseOutcome(conn: Registry, isSocket: bool, sock: nat, failing: set<nat>): CloseResult {
    if !isSocket then WrongType
    else if sock !in conn then NotOpened
    else if conn[sock].0 in failing || conn[sock].1 in failing then RuntimeError
    else Closed
  }

  /** What a close of a pair has closed when it raises. */
  function ClosedBefore(pair: (nat, nat), failing: set<nat>): set<nat> {
    if pair.0 in failing then {pair.0} else {pair.0, pair.1}
  }

  /** The round gets as far as bind. */
  predicate ReachesBind(a: Attempt) {
    a.SetupFails? || a.Connects?
  }

  type Registry = map<nat, (nat, nat)>

  /** The sockets of the registered pairs. */
  function Sockets(conn: Registry): set<nat> {
    (set k | k in conn :: conn[k].0) + (set k | k in conn :: conn[k].1)
  }

  /** Keys are the ids of the client sockets, and no socket belongs to two pairs. */
  ghost predicate PairsApart(conn: Registry) {
    && (forall k | k in conn :: conn[k].0 == k && conn[k].1 != k)
    && (forall j, k | j in conn && k in conn && j != k :: conn[j].1 != conn[k].0 && conn[j].1 != conn[k].1)
  }

  /** A pair of two new sockets was registered under its client. */
  ghost predicate Gained(before: Registry, live: set<nat>, client: nat, after: Registry) {
    && client !in before && client in after && client !in live && after[client].1 !in live
    && after == before[client := (client, after[client].1)]
  }

  class ServerModule {
    var connList: Registry
    var connState: map<nat, int>
    var endData: map<nat, string>
    var live: set<nat> // sockets created by the module and not closed
    var next: nat      // sockets created so far
    ghost var opening: set<nat> // those that only a call of `server_socket_open` under way refers to
    ghost var leaked: set<nat> // those that nothing refers to any more
    ghost var dead: set<nat> // registered ones that were closed when a close raised

    /** The registries have the same keys, a state is 0 or 1, and the open sockets are exactly the
        registered pairs, those being opened and those left behind, less what a failed close closed. */
    ghost predicate Valid()
      reads this
    {
      && connState.Keys == connList.Keys
      && (forall k | k in connState :: connState[k] == 0 || connState[k] == 1)
      && PairsApart(connList)
      && dead <= Sockets(connList) && live == (Sockets(connList) - dead) + opening + leaked
      && opening !! Sockets(connList) && leaked !! Sockets(connList) + opening
      && (forall s | s in live || s in dead :: s < next)
    }

    constructor ()
      ensures Valid() && connList == map[] && endData == map[]
      ensures opening == {} && leaked == {} && dead == {}
    {
      connList, connState, endData, live, next := map[], map[], map[], {}, 0;
      opening, leaked, dead := {}, {}, {};
    }

    /** A new socket of a call under way: the listener, or the client that accept returns. */
    method Create() returns (sock: nat)
      requires Valid()
      modifies this`live, this`next, this`opening
      ensures Valid() && sock !in old(live) && sock !in dead
      ensures live == old(live) + {sock} && opening == old(opening) + {sock}
    {
      sock := next;
      next := next + 1;
      live, opening := live + {sock}, opening + {sock};
    }

    /** The except branch closes the listener. */
    method Abandon(server: nat)
      requires Valid() && server in opening
      modifies this`live, this`opening
      ensures Valid() && live == old(live) - {server} && opening == old(opening) - {server}
    {
      live, opening := live - {server}, opening - {server};
    }

    method Register(client: nat, server: nat)
      requires Valid() && client in opening && server in opening && client != server
      modifies this`connList, this`connState, this`opening
      ensures Valid() && client !in old(connList) && connList == old(connList)[client := (client, server)]
      ensures connState == old(connState)[client := 1] && opening == old(opening) - {client, server}
    {
      hide Sockets, PairsApart;
      PairAdded(connList, client, server);
      connList := connList[client := (client, server)];
      connState := connState[client := 1];
      opening := opening - {client, server};
    }

    /** `server_socket_open`; `Retrying` says that the loop is still running when the attempts are
        used up. A socket is left behind exactly for a port above 65535, as soon as one gets to bind. */
    method Open(isInt: bool, port: int, attempts: seq<Attempt>) returns (r: OpenResult)
      requires Valid()
      modifies this
      ensures Valid() && endData == old(endData) && opening == old(opening) && dead == old(dead)
      ensures !r.Opened? ==> connList == old(connList) && connState == old(connState)
      ensures !r.Opened? && !r.Overflow? ==> live == old(live)
      ensures r.Opened? ==> Gained(old(connList), old(live), r.client, connList)
      ensures r.Opened? ==> connState == old(connState)[r.client := 1]
      ensures r.Opened? ==> r.client !in dead && connList[r.client].1 !in dead
      ensures !r.Overflow? ==> leaked == old(leaked)
      ensures r.Overflow? ==> exists s | s !in old(live) :: leaked == old(leaked) + {s} && live == old(live) + {s}
      ensures r.TypeError? <==> !isInt
      ensures r.ValueError? <==> isInt && (port < 0 || port == TP_SERVER_PORT)
      ensures isInt && port >= 0 && port != TP_SERVER_PORT ==>
        (r.Unbound? <==> attempts != [] && attempts[0].CreateFails?)
      ensures r.Opened? <==>
        isInt && 0 <= port <= MAX_PORT && port != TP_SERVER_PORT && Connects in attempts && !attempts[0].CreateFails?
      ensures r.Overflow? <==>
        isInt && port > MAX_PORT && (exists a | a in attempts :: ReachesBind(a)) && !attempts[0].CreateFails?
    {
      if !isInt { return TypeError; }
      if port < 0 || port == TP_SERVER_PORT { return ValueError; }
      var bound := false; // server_sock has been assigned
      for i := 0 to |attempts|
        invariant Valid() && connList == old(connList) && connState == old(connState) && endData == old(endData)
        invariant live == old(live) && opening == old(opening) && leaked == old(leaked) && dead == old(dead)
        invariant forall a | a in attempts[..i] :: !a.Connects? && (port > MAX_PORT ==> !ReachesBind(a))
        invariant bound <==> i > 0
        invariant i > 0 ==> !attempts[0].CreateFails?
      {
        assert attempts[..i + 1] == attempts[..i] + [attempts[i]];
        if attempts[i].CreateFails? {
          if !bound { return Unbound; }
          continue;
        }
        bound := true;
        assert attempts[i] in attempts;
        var round := Round(port, attempts[i]);
        if round != Retrying { return round; }
      }
      assert attempts[..|attempts|] == attempts;
      return Retrying;
    }

    /** A round of the loop that creates its listener. */
    method Round(port: nat, attempt: Attempt) returns (r: OpenResult)
      requires Valid() && !attempt.CreateFails?
      modifies this`connList, this`connState, this`live, this`next, this`opening, this`leaked
      ensures Valid() && opening == old(opening)
      ensures r.Opened? <==> attempt.Connects? && port <= MAX_PORT
      ensures r == Overflow <==> ReachesBind(attempt) && port > MAX_PORT
      ensures !r.Opened? && r != Overflow ==> r == Retrying
      ensures r.Opened? ==>
        Gained(old(connList), old(live), r.client, connList) && connState == old(connState)[r.client := 1]
      ensures r.Opened? ==> r.client !in dead && connList[r.client].1 !in dead
      ensures !r.Opened? ==> connList == old(connList) && connState == old(connState)
      ensures r == Retrying ==> live == old(live)
      ensures r != Overflow ==> leaked == old(leaked)
      ensures r == Overflow ==> exists s | s !in old(live) :: leaked == old(leaked) + {s} && live == old(live) + {s}
    {
      hide Sockets, PairsApart;
      var server := Create();
      if attempt.OptionFails? {
        Abandon(server);
        return Retrying;
      }
      if port > MAX_PORT {
        Forget(server);
        return Overflow;
      }
      if attempt.SetupFails? {
        Abandon(server);
        return Retrying;
      }
      var client := Create();
      Register(client, server);
      return Opened(client);
    }

    /** An exception that the except branch does not handle: the call ends with its listener open. */
    ghost method Forget(server: nat)
      requires Valid() && server in opening
      modifies this`opening, this`leaked
      ensures Valid() && opening == old(opening) - {server} && leaked == old(leaked) + {server}
    {
      opening, leaked := opening - {server}, leaked + {server};
    }

    /** `close()` of a registered socket. It is closed even if the call raises, which it does for the
        sockets in `failing`; closing it again does nothing. */
    method Shut(sock: nat, failing: set<nat>) returns (raised: bool)
      requires Valid() && sock in Sockets(connList)
      modifies this`live, this`dead
      ensures Valid() && live == old(live) - {sock} && dead == old(dead) + {sock} && (raised <==> sock in failing)
    {
      live, dead := live - {sock}, dead + {sock};
      return sock in failing;
    }

    /** Deletes both entries of a pair that is closed. */
    method Unregister(sock: nat)
      requires Valid() && sock in connList && connList[sock].0 in dead && connList[sock].1 in dead
      modifies this`connList, this`connState, this`dead
      ensures Valid() && connList == old(connList) - {sock} && connState == old(connState) - {sock}
      ensures dead == old(dead) - {old(connList)[sock].0} - {old(connList)[sock].1}
    {
      hide Sockets, PairsApart;
      PairRemoved(connList, sock);
      dead := dead - {connList[sock].0} - {connList[sock].1};
      connState := connState - {sock};
      connList := connList - {sock};
    }

    /** `server_socket_close`. A close that raises leaves the pair registered, so it can be repeated. */
    method Close(isSocket: bool, sock: nat, failing: set<nat>) returns (r: CloseResult)
      requires Valid()
      modifies this`connList, this`connState, this`live, this`dead
      ensures Valid()
      ensures r == CloseOutcome(old(connList), isSocket, sock, failing)
      ensures r == Closed ==> connList == old(connList) - {sock} && connState == old(connState) - {sock}
      ensures r == Closed ==> dead == old(dead) - {old(connList)[sock].0} - {old(connList)[sock].1}
      ensures r != Closed ==> connList == old(connList) && connState == old(connState)
      ensures r == RuntimeError ==> dead == old(dead) + ClosedBefore(old(connList)[sock], failing)
      ensures r == WrongType || r == NotOpened ==> live == old(live) && dead == old(dead)
    {
      if !isSocket { return WrongType; }
      if sock !in connList { return NotOpened; }
      hide Sockets, PairsApart;
      PairRemoved(connList, sock);
      var (client, server) := connList[sock];
      var raised := Shut(client, failing);
      if raised { return RuntimeError; }
      raised := Shut(server, failing);
      if raised { return RuntimeError; }
      Unregister(sock);
      return Closed;
    }

    /** `clean_server_socket`: nothing stays registered or open, unless a close raises. */
    method Clean(failing: set<nat>) returns (raised: bool)
      requires Valid()
      modifies this`connList, this`connState, this`live, this`dead, this`endData
      ensures Valid() && (raised <==> exists s :: s in Sockets(old(connList)) && s in failing)
      ensures !raised ==>
        connList == map[] && connState == map[] && endData == map[] && live == opening + leaked && dead == {}
      ensures raised ==> connList.Keys <= old(connList).Keys
    {
      hide PairsApart, Sockets;
      NoneLeft();
      var ids := connList.Keys;
      while ids != {}
        invariant Valid() && ids == connList.Keys && ids <= old(connList).Keys
        invariant Sockets(connList) <= Sockets(old(connList))
        invariant forall s | s in Sockets(old(connList)) && s in failing :: s in Sockets(connList)
        decreases ids
      {
        var sock :| sock in ids;
        PairRemoved(connList, sock);
        var (client, server) := connList[sock];
        raised := Shut(client, failing);
        if raised { return; }
        raised := Shut(server, failing);
        if raised { return; }
        Unregister(sock);
        ids := ids - {sock};
      }
      assert connList == map[];
      raised, endData := false, map[];
    }

    /** `server_socket_state`. */
    method State(sock: nat) returns (r: int)
      requires Valid()
      ensures (r == 1 || r == 0) && (r == 1 <==> sock in connList && connState[sock] == 1)
    {
      if sock in connList { return connState[sock]; }
      return 0;
    }

    /** The write that a read performs after its receive reported the end of the stream. It keeps the
        registries in step exactly when the socket is still registered by then: a close by another
        thread between the receive and this write leaves a state without a connection. */
    method MarkDisconnected(sock: nat)
      modifies this`connState
      ensures connState == old(connState)[sock := 0]
      ensures old(Valid()) ==> (Valid() <==> sock in connList)
    {
      connState := connState[sock := 0];
      assert sock in connState;
    }
  }

  lemma Registered(conn: Registry)
    ensures forall k | k in conn :: conn[k].0 in Sockets(conn) && conn[k].1 in Sockets(conn)
  {
  }

  lemma PairAdded(conn: Registry, client: nat, server: nat)
    requires PairsApart(conn) && client !in Sockets(conn) && server !in Sockets(conn) && client != server
    ensures client !in conn && PairsApart(conn[client := (client, server)])
    ensures Sockets(conn[client := (client, server)]) == Sockets(conn) + {client, server}
  {
    var more := conn[client := (client, server)];
    Registered(conn);
    assert forall k | k in conn :: k in more && more[k] == conn[k];
    assert client in more;
    forall s ensures s in Sockets(more) <==> s in Sockets(conn) + {client, server} {
      if s in Sockets(conn) {
        var k :| k in conn && (conn[k].0 == s || conn[k].1 == s);
        assert more[k] == conn[k];
      }
      if s == client || s == server { assert more[client] == (client, server); }
    }
    forall j, k | j in more && k in more && j != k ensures more[j].1 != more[k].0 && more[j].1 != more[k].1 {
    }
  }

  lemma NoneLeft()
    ensures Sockets(map[]) == {}
  {
  }

  lemma PairRemoved(conn: Registry, sock: nat)
    requires PairsApart(conn) && sock in conn
    ensures PairsApart(conn - {sock})
    ensures conn[sock].0 in Sockets(conn) && conn[sock].1 in Sockets(conn)
    ensures Sockets(conn - {sock}) == Sockets(conn) - {conn[sock].0} - {conn[sock].1}
  {
    var less := conn - {sock};
    forall s ensures s in Sockets(less) <==> s in Sockets(conn) - {conn[sock].0} - {conn[sock].1} {
      if s in Sockets(less) {
        var k :| k in less && (less[k].0 == s || less[k].1 == s);
        assert k in conn && k != sock && conn[k] == less[k];
        assert conn[sock].1 != conn[k].0 && conn[k].1 != conn[sock].0;
      }
      if s in Sockets(conn) - {conn[sock].0} - {conn[sock].1} {
        var k :| k in conn && (conn[k].0 == s || conn[k].1 == s);
        assert k in less && less[k] == conn[k];
      }
    }
  }

  /** One call of the module. `failing` are the sockets whose close raises. */
  datatype Call =
    | DoOpen(isInt: bool, port: int, attempts: seq<Attempt>)
    | DoClose(isSocket: bool, sock: nat, failing: set<nat>)
    | DoClean(failing: set<nat>)
    | DoEof(sock: nat)

  ghost predicate FitsPorts(c: Call) {
    c.DoOpen? ==> c.port <= MAX_PORT
  }

  ghost predicate Closes(c: Call) {
    (c.DoClose? || c.DoClean?) ==> c.failing == {}
  }

  /** Over any sequence of calls, where the end of a stream is seen on a registered socket, the
      registries stay in step and no socket is lost but those of opens with a port above 65535; a
      registered socket is open unless a close of it raised. */
  method RunCalls(m: ServerModule, calls: seq<Call>)
    requires m.Valid() && m.opening == {} && m.leaked == {} && m.dead == {}
    modifies m
    ensures m.Valid() && m.connState.Keys == m.connList.Keys
    ensures m.opening == {} && m.live == (Sockets(m.connList) - m.dead) + m.leaked
    ensures (forall i | 0 <= i < |calls| :: FitsPorts(calls[i])) ==> m.leaked == {}
    ensures (forall i | 0 <= i < |calls| :: Closes(calls[i])) ==> m.dead == {}
  {
    hide Sockets, PairsApart;
    for i := 0 to |calls|
      invariant m.Valid() && m.opening == {}
      invariant (forall c | 0 <= c < i :: FitsPorts(calls[c])) ==> m.leaked == {}
      invariant (forall c | 0 <= c < i :: Closes(calls[c])) ==> m.dead == {}
    {
      match calls[i] {
        case DoOpen(isInt, port, attempts) => var r := m.Open(isInt, port, attempts);
        case DoClose(isSocket, sock, failing) => var r := m.Close(isSocket, sock, failing);
        case DoClean(failing) => var raised := m.Clean(failing);
        case DoEof(sock) => if sock in m.connList { m.MarkDisconnected(sock); }
      }
    }
  }

  /** A connection from beginning to end: opened on a free port it is new and connected, a disconnect shows
      in its state, and closing it brings back the registries and the open sockets there were before. */
  method OpenMarkClose(m: ServerModule, port: nat)
    returns (sock: nat, known: bool, connected: int, disconnected: int,
             closed: CloseResult, again: CloseResult, gone: int)
    requires m.Valid() && port <= MAX_PORT && port != TP_SERVER_PORT
    modifies m
    ensures m.Valid() && m.connList == old(m.connList) && m.connState == old(m.connState) && m.live == old(m.live)
    ensures known && connected == 1 && disconnected == 0 && closed == Closed && again == NotOpened && gone == 0
  {
    hide Sockets, PairsApart;
    var r := m.Open(true, port, [Connects]);
    sock := r.client;
    assert m.connList - {sock} == old(m.connList) && m.connState - {sock} == old(m.connState);
    known := sock in m.connList;
    connected := m.State(sock);
    m.MarkDisconnected(sock);
    disconnected := m.State(sock);
    closed := m.Close(true, sock, {});
    again := m.Close(true, sock, {});
    gone := m.State(sock);
  }

  /** A close that raised can be repeated, and then does what it should have done at once. */
  method CloseAgainAfterFailure(m: ServerModule, sock: nat, failing: set<nat>)
    returns (first: CloseResult, again: CloseResult)
    requires m.Valid() && sock in m.connList
    requires m.connList[sock].0 in failing || m.connList[sock].1 in failing
    modifies m
    ensures m.Valid() && first == RuntimeError && again == Closed
    ensures m.connList == old(m.connList) - {sock} && m.connState == old(m.connState) - {sock}
  {
    hide Sockets, PairsApart;
    first := m.Close(true, sock, failing);
    again := m.Close(true, sock, {});
  }
}
