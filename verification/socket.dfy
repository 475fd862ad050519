/**
 * The connection manager: liveness probing, the WebSocket event handlers
 * installed by `connectToSocket`, and the reconnect scheduled on every close.
 *
 * Each call of `connectToSocket` owns a fresh `firstMessage` flag captured
 * by the handlers of the socket it creates, so the flag is kept per
 * connection, next to that socket's ready state. The module-level `socket`
 * variable names the most recently created socket, or none.
 */
module Socket {
  import opened Wrappers
  import opened Data

  type SocketId = nat

  /** The WebSocket `readyState` values CONNECTING, OPEN, CLOSING and CLOSED. */
  datatype ReadyState = Connecting | Open | Closing | Closed

  /** One connection: its socket's ready state and its handlers' `firstMessage` flag. */
  datatype Conn = Conn(state: ReadyState, firstMessage: bool)

  /** A call made by the handlers into one of the three callbacks given to `connectToSocket`. */
  datatype Callback =
    | Init(conn: SocketId, frame: Frame)
    | DataFrame(conn: SocketId, frame: Frame)
    | Finalize(conn: SocketId)

  /** The probe loop of `waitUntilUp`, on the outcomes of its successive pings. */
  method WaitUntilUp(pings: seq<bool>) returns (up: bool, pingCount: nat, waits: nat)
    ensures up ==> pingCount < |pings| && pings[pingCount]
    ensures !up ==> pingCount == |pings|
    ensures forall j :: 0 <= j < pingCount ==> !pings[j]
    ensures waits == pingCount
  {
    pingCount, waits := 0, 0;
    while pingCount < |pings|
      invariant pingCount <= |pings|
      invariant forall j :: 0 <= j < pingCount ==> !pings[j]
      invariant waits == pingCount
    {
      if pings[pingCount] {
        return true, pingCount, waits;
      }
      pingCount := pingCount + 1;
      waits := waits + 1;
    }
    up := false;
  }

  /** The callbacks of connection `c`, in the order they were made. */
  ghost function Project(t: seq<Callback>, c: SocketId): (p: seq<Callback>)
    ensures |p| <= |t|
    ensures forall e :: e in p ==> e in t && e.conn == c
  {
    if t == [] then []
    else Project(t[..|t| - 1], c) + (if t[|t| - 1].conn == c then [t[|t| - 1]] else [])
  }

  /** An open session: either nothing yet, or one `Init` followed only by `DataFrame`. */
  ghost predicate Streaming(p: seq<Callback>) {
    p == [] || (p[0].Init? && forall j :: 0 < j < |p| ==> p[j].DataFrame?)
  }

  /** A closed session: a `Streaming` prefix and one final `Finalize`. */
  ghost predicate Finished(p: seq<Callback>) {
    |p| > 0 && p[|p| - 1].Finalize? && Streaming(p[..|p| - 1])
  }

  ghost predicate SessionShaped(p: seq<Callback>) {
    Streaming(p) || Finished(p)
  }

  /** How a connection's state determines what its callbacks have been. */
  ghost predicate SessionMatches(conn: Conn, p: seq<Callback>) {
    if conn.state == Closed then
      !conn.firstMessage && Finished(p)
    else
      Streaming(p) && (conn.firstMessage <==> p != []) && (conn.state == Connecting ==> p == [])
  }

  lemma ProjectAppend(t: seq<Callback>, e: Callback, c: SocketId)
    ensures Project(t + [e], c) == Project(t, c) + (if e.conn == c then [e] else [])
  {
    assert (t + [e])[..|t|] == t;
  }

  lemma {:induction false} ProjectUnused(t: seq<Callback>, c: SocketId)
    requires forall i :: 0 <= i < |t| ==> t[i].conn != c
    ensures Project(t, c) == []
  {
    if t != [] {
      ProjectUnused(t[..|t| - 1], c);
    }
  }

  /** Removing the newest callback keeps a session well shaped. */
  lemma ShapedPrefix(t: seq<Callback>, c: SocketId)
    requires t != []
    requires SessionShaped(Project(t, c))
    ensures SessionShaped(Project(t[..|t| - 1], c))
  {
    var p, q := Project(t, c), Project(t[..|t| - 1], c);
    if t[|t| - 1].conn != c {
      assert p == q;
    } else {
      assert p == q + [t[|t| - 1]];
      assert q == p[..|p| - 1];
      if !Finished(p) {
        assert Streaming(q) by {
          if q != [] {
            assert q[0] == p[0];
            forall j | 0 < j < |q| ensures q[j].DataFrame? {
              assert q[j] == p[j];
            }
          }
        }
      }
    }
  }

  /**
   * A `DataFrame` callback of a connection is always preceded by that
   * connection's `Init` callback.
   */
  lemma {:induction false} InitPrecedesData(t: seq<Callback>, c: SocketId, j: nat)
    requires SessionShaped(Project(t, c))
    requires j < |t| && t[j].DataFrame? && t[j].conn == c
    ensures exists i :: 0 <= i < j && t[i].Init? && t[i].conn == c
  {
    var t' := t[..|t| - 1];
    ShapedPrefix(t, c);
    if j < |t| - 1 {
      assert t'[j] == t[j];
      InitPrecedesData(t', c, j);
      var i :| 0 <= i < j && t'[i].Init? && t'[i].conn == c;
      assert t[i] == t'[i];
    } else {
      var p, q := Project(t, c), Project(t', c);
      assert p == q + [t[j]];
      assert !Finished(p);
      assert q != [] && q[0] == p[0];
      assert q[0] in t';
      var i :| 0 <= i < |t'| && t'[i] == q[0];
      assert t[i] == t'[i];
    }
  }

  /** A connection makes at most one `Init` callback. */
  lemma {:induction false} InitAtMostOnce(t: seq<Callback>, c: SocketId, i: nat, j: nat)
    requires SessionShaped(Project(t, c))
    requires i < j < |t|
    requires t[i].Init? && t[i].conn == c
    ensures !(t[j].Init? && t[j].conn == c)
  {
    var t' := t[..|t| - 1];
    ShapedPrefix(t, c);
    if j < |t| - 1 {
      assert t'[i] == t[i] && t'[j] == t[j];
      InitAtMostOnce(t', c, i, j);
    } else if t[j].conn == c {
      var p, q := Project(t, c), Project(t', c);
      assert p == q + [t[j]];
      assert t'[i] == t[i];
      assert t[i] in q by { ProjectContains(t', c, i); }
      assert q != [] && p[|q|] == t[j];
    }
  }

  /** After a connection's `Finalize` callback it makes no other callback. */
  lemma {:induction false} FinalizeIsLast(t: seq<Callback>, c: SocketId, i: nat, j: nat)
    requires SessionShaped(Project(t, c))
    requires i < j < |t|
    requires t[i] == Finalize(c)
    ensures t[j].conn != c
  {
    var t' := t[..|t| - 1];
    ShapedPrefix(t, c);
    if j < |t| - 1 {
      assert t'[i] == t[i] && t'[j] == t[j];
      FinalizeIsLast(t', c, i, j);
    } else {
      var q := Project(t', c);
      assert t'[i] == t[i];
      ProjectContains(t', c, i);
      var k :| 0 <= k < |q| && q[k] == t[i];
      ShapeAt(q, k);
      assert Finished(q);
      NothingAfterFinalize(q, t[j]);
      var x := t[j];
      assert Project(t, c) == q + (if x.conn == c then [x] else []);
    }
  }

  /** A finished session admits no further callback. */
  lemma NothingAfterFinalize(q: seq<Callback>, x: Callback)
    requires Finished(q)
    ensures !SessionShaped(q + [x])
  {
    var r := q + [x];
    assert r[|q| - 1] == q[|q| - 1];
    assert r[..|r| - 1] == q;
  }

  /** A session that has not closed grows by an `Init` when empty and by a `DataFrame` otherwise. */
  lemma StreamingExtend(p: seq<Callback>, e: Callback)
    requires Streaming(p)
    requires if p == [] then e.Init? else e.DataFrame?
    ensures Streaming(p + [e])
  {
    if p != [] {
      assert (p + [e])[0] == p[0];
      forall j | 0 < j < |p| + 1 ensures (p + [e])[j].DataFrame? {
        if j < |p| {
          assert (p + [e])[j] == p[j];
        }
      }
    }
  }

  /** Where each kind of callback may stand in a well-shaped session. */
  lemma ShapeAt(p: seq<Callback>, k: nat)
    requires SessionShaped(p) && k < |p|
    ensures p[k].Init? ==> k == 0
    ensures p[k].Finalize? ==> k == |p| - 1
    ensures 0 < k < |p| - 1 ==> p[k].DataFrame?
  {
    if Finished(p) && k < |p| - 1 {
      assert p[..|p| - 1][k] == p[k];
    }
  }

  lemma {:induction false} ProjectContains(t: seq<Callback>, c: SocketId, i: nat)
    requires i < |t| && t[i].conn == c
    ensures t[i] in Project(t, c)
  {
    if i < |t| - 1 {
      assert t[..|t| - 1][i] == t[i];
      ProjectContains(t[..|t| - 1], c, i);
    }
  }

  /**
   * WebSocket.close() on the socket named by `s`: a socket that is
   * CONNECTING or OPEN starts closing; otherwise nothing happens.
   */
  function CloseSocket(conns: map<SocketId, Conn>, s: SocketId): (r: map<SocketId, Conn>)
    requires s in conns
    ensures r.Keys == conns.Keys
    ensures forall c :: c in conns && c != s ==> r[c] == conns[c]
    ensures r[s].firstMessage == conns[s].firstMessage
    ensures r[s].state == (if conns[s].state in {Connecting, Open} then Closing else conns[s].state)
  {
    if conns[s].state in {Connecting, Open} then conns[s := conns[s].(state := Closing)] else conns
  }

  /** Every callback belongs to a known connection, and each connection's state matches its callbacks. */
  ghost predicate Consistent(conns: map<SocketId, Conn>, t: seq<Callback>) {
    && (forall i :: 0 <= i < |t| ==> t[i].conn in conns)
    && (forall c {:trigger Project(t, c)} :: c in conns ==> SessionMatches(conns[c], Project(t, c)))
  }

  /** Recording one more callback of connection `e.conn`, whose new state matches it, keeps consistency. */
  lemma RecordCallback(conns: map<SocketId, Conn>, t: seq<Callback>, e: Callback, conn: Conn)
    requires Consistent(conns, t) && e.conn in conns
    requires SessionMatches(conn, Project(t, e.conn) + [e])
    ensures Consistent(conns[e.conn := conn], t + [e])
  {
    var conns' := conns[e.conn := conn];
    forall c | c in conns' ensures SessionMatches(conns'[c], Project(t + [e], c)) {
      ProjectAppend(t, e, c);
      if c != e.conn {
        assert conns'[c] == conns[c] && Project(t + [e], c) == Project(t, c);
      }
    }
    forall i | 0 <= i < |t + [e]| ensures (t + [e])[i].conn in conns' {
      if i < |t| {
        assert (t + [e])[i] == t[i];
      }
    }
  }

  /** A message on an open connection records its `Init` when it is the first, a `DataFrame` otherwise. */
  lemma MessageKeepsConsistent(conns: map<SocketId, Conn>, t: seq<Callback>, e: Callback)
    requires Consistent(conns, t) && e.conn in conns && conns[e.conn].state == Open
    requires if conns[e.conn].firstMessage then e.DataFrame? else e.Init?
    ensures Consistent(conns[e.conn := Conn(Open, true)], t + [e])
  {
    StreamingExtend(Project(t, e.conn), e);
    RecordCallback(conns, t, e, Conn(Open, true));
  }

  /** Changing one connection's state consistently with its callbacks keeps consistency. */
  lemma UpdateConn(conns: map<SocketId, Conn>, t: seq<Callback>, id: SocketId, conn: Conn)
    requires Consistent(conns, t) && id in conns
    requires SessionMatches(conn, Project(t, id))
    ensures Consistent(conns[id := conn], t)
  {
  }

  /** A new connection starts with no callbacks. */
  lemma AddConn(conns: map<SocketId, Conn>, t: seq<Callback>, id: SocketId)
    requires Consistent(conns, t) && id !in conns
    ensures Consistent(conns[id := Conn(Connecting, false)], t)
  {
    ProjectUnused(t, id);
  }

  /** Closing a socket never breaks consistency. */
  lemma CloseKeepsConsistent(conns: map<SocketId, Conn>, t: seq<Callback>, s: SocketId)
    requires Consistent(conns, t) && s in conns
    ensures Consistent(CloseSocket(conns, s), t)
  {
    if conns[s].state in {Connecting, Open} {
      UpdateConn(conns, t, s, conns[s].(state := Closing));
    }
  }

  /** The state of `socket.ts`: the module-level socket, the connections and the three UI elements. */
  class SocketClient {
    var socket: Option<SocketId>
    var conns: map<SocketId, Conn>
    var nextId: SocketId
    var pendingReconnects: nat
    var connectionVisible: bool
    var panelVisible: bool
    var colorVisible: bool
    ghost var trace: seq<Callback>

    ghost predicate Valid()
      reads this
    {
      && (socket.Some? ==> socket.value in conns)
      && (forall c :: c in conns ==> c < nextId)
      && Consistent(conns, trace)
      && connectionVisible == !panelVisible
      && panelVisible == colorVisible
    }

    /** Every connection's callbacks are well shaped. */
    lemma SessionsShaped(c: SocketId)
      requires Valid()
      ensures SessionShaped(Project(trace, c))
    {
      if c !in conns {
        ProjectUnused(trace, c);
      }
    }

    /** Module initialisation: no socket, and the UI in its disconnected form. */
    constructor ()
      ensures Valid()
      ensures socket == None && conns == map[] && trace == [] && pendingReconnects == 0
      ensures connectionVisible && !panelVisible && !colorVisible
    {
      socket := None;
      conns := map[];
      nextId := 0;
      pendingReconnects := 0;
      trace := [];
      new;
      ToggleUI(true);
    }

    /** The connection element is shown iff `hideUi`; the panel and colour elements iff not. */
    method ToggleUI(hideUi: bool)
      modifies this
      ensures connectionVisible == hideUi && panelVisible == !hideUi && colorVisible == !hideUi
      ensures socket == old(socket) && conns == old(conns) && nextId == old(nextId)
      ensures pendingReconnects == old(pendingReconnects) && trace == old(trace)
    {
      connectionVisible := hideUi;
      panelVisible := !hideUi;
      colorVisible := !hideUi;
    }

    /** The ready state of the module-level socket, or `None` when it is null. */
    function ModuleSocketState(): (r: Option<ReadyState>)
      reads this
      requires Valid()
      ensures r.None? <==> socket.None?
      ensures r.Some? ==> r.value == conns[socket.value].state
    {
      if socket.None? then None else Some(conns[socket.value].state)
    }

    /**
     * `socketConnectionFailed`: close the module-level socket if there is
     * one, set it to null, and schedule one new `connectToSocket`.
     */
    method SocketConnectionFailed()
      requires Valid()
      modifies this
      ensures Valid()
      ensures socket == None
      ensures pendingReconnects == old(pendingReconnects) + 1
      ensures conns == if old(socket).Some? then CloseSocket(old(conns), old(socket).value) else old(conns)
      ensures trace == old(trace) && nextId == old(nextId)
      ensures connectionVisible == old(connectionVisible) && panelVisible == old(panelVisible)
      ensures colorVisible == old(colorVisible)
    {
      if socket.Some? {
        CloseKeepsConsistent(conns, trace, socket.value);
        conns := CloseSocket(conns, socket.value);
      }
      socket := None;
      pendingReconnects := pendingReconnects + 1;
    }

    /**
     * `connectToSocket`: probe until the server answers, then create a new
     * socket, with its own `firstMessage` flag cleared, and make it the
     * module-level socket. When no ping in `pings` succeeds the probe is
     * still running and no socket exists yet.
     */
    method ConnectToSocket(pings: seq<bool>) returns (up: bool, pingCount: nat)
      requires Valid()
      modifies this
      ensures Valid()
      ensures pingCount <= |pings|
      ensures up ==> pingCount < |pings| && pings[pingCount]
      ensures forall j :: 0 <= j < pingCount ==> !pings[j]
      ensures !up ==> pingCount == |pings| && socket == old(socket) && conns == old(conns)
      ensures up ==> old(nextId) !in old(conns) && socket == Some(old(nextId))
      ensures up ==> conns == old(conns)[old(nextId) := Conn(Connecting, false)]
      ensures trace == old(trace) && pendingReconnects == old(pendingReconnects)
      ensures connectionVisible == old(connectionVisible) && panelVisible == old(panelVisible)
      ensures colorVisible == old(colorVisible)
    {
      var waits;
      up, pingCount, waits := WaitUntilUp(pings);
      if up {
        var id := nextId;
        AddConn(conns, trace, id);
        conns := conns[id := Conn(Connecting, false)];
        nextId := nextId + 1;
        socket := Some(id);
      }
    }

    /** The timer scheduled by `socketConnectionFailed` fires and calls `connectToSocket`. */
    method FireReconnect(pings: seq<bool>) returns (up: bool, pingCount: nat)
      requires Valid() && pendingReconnects > 0
      modifies this
      ensures Valid()
      ensures pendingReconnects == old(pendingReconnects) - 1
      ensures pingCount <= |pings|
      ensures up ==> pingCount < |pings| && pings[pingCount]
      ensures forall j :: 0 <= j < pingCount ==> !pings[j]
      ensures !up ==> pingCount == |pings| && socket == old(socket) && conns == old(conns)
      ensures up ==> old(nextId) !in old(conns) && socket == Some(old(nextId))
      ensures up ==> conns == old(conns)[old(nextId) := Conn(Connecting, false)]
      ensures trace == old(trace)
      ensures connectionVisible == old(connectionVisible) && panelVisible == old(panelVisible)
      ensures colorVisible == old(colorVisible)
    {
      pendingReconnects := pendingReconnects - 1;
      up, pingCount := ConnectToSocket(pings);
    }

    /** `onopen`: the browser marks the socket OPEN; the handler shows the connected UI. */
    method OnOpen(id: SocketId)
      requires Valid() && id in conns && conns[id].state == Connecting
      modifies this
      ensures Valid()
      ensures conns == old(conns)[id := Conn(Open, old(conns)[id].firstMessage)]
      ensures !connectionVisible && panelVisible && colorVisible
      ensures socket == old(socket) && trace == old(trace) && pendingReconnects == old(pendingReconnects)
    {
      UpdateConn(conns, trace, id, conns[id].(state := Open));
      conns := conns[id := conns[id].(state := Open)];
      ToggleUI(false);
    }

    /**
     * `onmessage`: the first frame of a connection goes to the initialize
     * callback and sets the flag; every later frame goes to the data callback.
     */
    method OnMessage(id: SocketId, frame: Frame)
      requires Valid() && id in conns && conns[id].state == Open
      modifies this
      ensures Valid()
      ensures !old(conns)[id].firstMessage ==> trace == old(trace) + [Init(id, frame)]
      ensures old(conns)[id].firstMessage ==> trace == old(trace) + [DataFrame(id, frame)]
      ensures conns == old(conns)[id := Conn(Open, true)]
      ensures socket == old(socket) && pendingReconnects == old(pendingReconnects)
      ensures connectionVisible == old(connectionVisible) && panelVisible == old(panelVisible)
      ensures colorVisible == old(colorVisible)
    {
      var e := if !conns[id].firstMessage then Init(id, frame) else DataFrame(id, frame);
      MessageKeepsConsistent(conns, trace, e);
      conns := conns[id := Conn(Open, true)];
      trace := trace + [e];
    }

    /**
     * `onclose`, clean or not: finalize, clear the flag, show the
     * disconnected UI and run `socketConnectionFailed`.
     */
    method OnClose(id: SocketId, wasClean: bool)
      requires Valid() && id in conns && conns[id].state != Closed
      modifies this
      ensures Valid()
      ensures trace == old(trace) + [Finalize(id)]
      ensures var closed := old(conns)[id := Conn(Closed, false)];
        conns == if old(socket).Some? then CloseSocket(closed, old(socket).value) else closed
      ensures socket == None
      ensures pendingReconnects == old(pendingReconnects) + 1
      ensures connectionVisible && !panelVisible && !colorVisible
    {
      var e := Finalize(id);
      assert (Project(trace, id) + [e])[..|Project(trace, id)|] == Project(trace, id);
      RecordCallback(conns, trace, e, Conn(Closed, false));
      conns := conns[id := Conn(Closed, false)];
      trace := trace + [e];
      ToggleUI(true);
      SocketConnectionFailed();
    }

    /**
     * `onerror`: close the module-level socket. When that variable is null
     * the call throws and the handler does nothing else.
     */
    method OnError(id: SocketId) returns (threw: bool)
      requires Valid() && id in conns && conns[id].state != Closed
      modifies this
      ensures Valid()
      ensures threw <==> old(socket).None?
      ensures conns == if old(socket).Some? then CloseSocket(old(conns), old(socket).value) else old(conns)
      ensures socket == old(socket) && trace == old(trace) && pendingReconnects == old(pendingReconnects)
      ensures connectionVisible == old(connectionVisible) && panelVisible == old(panelVisible)
      ensures colorVisible == old(colorVisible)
    {
      threw := socket.None?;
      if !threw {
        CloseKeepsConsistent(conns, trace, socket.value);
        conns := CloseSocket(conns, socket.value);
      }
    }
  }
}
