/**
 * Sequences of registry calls and browser events on a fresh manager, each
 * stating what the sequence as a whole guarantees: one socket per subject,
 * the creation cooldown, reconnection after an abnormal close only, and
 * what a late close event of a replaced socket still does.
 */
module Scenarios {
  import opened Wrappers
  import opened Wire
  import opened Subscribers
  import opened Registry

  const Subject := "abc123"
  const Url := "ws://localhost:8000/ws?collection_id=abc123"

  /** A fresh manager whose only state is two subscriptions: status 1 and error 7. */
  method Subscribed() returns (m: WebSocketManager)
    ensures fresh(m) && m.Valid()
    ensures m.HandlersOf(Subject).status == [1] && m.HandlersOf(Subject).error == [7]
    ensures m.HandlersOf(Subject).message == []
    ensures m.connections == map[] && m.sockets == map[] && m.lastConnectionAttempt == map[]
    ensures m.reconnects == [] && m.nextSocket == 0
  {
    m := new WebSocketManager();
    m.On(Subject, StatusEvents, 1);
    ghost var b1 := Add(NoHandlers, StatusEvents, 1);
    assert m.eventHandlers == map[Subject := b1];
    assert b1.Of(StatusEvents) == [1] && b1.Of(ErrorEvents) == [] && b1.Of(MessageEvents) == [];
    m.On(Subject, ErrorEvents, 7);
    ghost var b2 := Add(b1, ErrorEvents, 7);
    assert m.HandlersOf(Subject) == b2;
    assert b2.Of(StatusEvents) == [1] && b2.Of(ErrorEvents) == [7] && b2.Of(MessageEvents) == [];
  }

  /** `Subscribed`, then a connection requested at `t0`: one CONNECTING socket, registered. */
  method Requested(t0: int) returns (m: WebSocketManager)
    requires t0 >= COOLDOWN_MS
    ensures fresh(m) && m.Valid()
    ensures m.HandlersOf(Subject).status == [1] && m.HandlersOf(Subject).message == []
    ensures m.sockets == map[0 := Socket(Subject, Url, Connecting)] && m.connections == map[Subject := 0]
    ensures m.lastConnectionAttempt == map[Subject := t0]
    ensures m.reconnects == [] && m.nextSocket == 1
  {
    m := Subscribed();
    assert m.Snapshot().Classify(Subject, t0) == Create;
    var s, ignored := m.GetConnection(Subject, Url, t0, Constructed);
  }

  /** `Requested`, then the socket opens. */
  method Opened(t0: int) returns (m: WebSocketManager, openCalls: seq<Call>)
    requires t0 >= COOLDOWN_MS
    ensures fresh(m) && m.Valid()
    ensures openCalls == [Call(StatusEvents, 1, Connected(true))]
    ensures m.HandlersOf(Subject).status == [1] && m.HandlersOf(Subject).message == []
    ensures m.sockets == map[0 := Socket(Subject, Url, Open)] && m.connections == map[Subject := 0]
    ensures m.lastConnectionAttempt == map[Subject := t0]
    ensures Subject in m.pingIntervals && m.pingIntervals[Subject] in m.timers
    ensures m.timers[m.pingIntervals[Subject]].socket == 0
    ensures m.reconnects == [] && m.nextSocket == 1
  {
    m := Requested(t0);
    openCalls := m.OnOpen(0);
    assert openCalls == FanOut(StatusEvents, [1], Connected(true));
  }

  /**
   * `Requested`, then a second status subscriber and a second request at
   * any later time while the socket is still connecting: the request hands
   * back the same socket.
   */
  method Joined(t0: int, dt: nat) returns (m: WebSocketManager, second: Option<SocketId>)
    requires t0 >= COOLDOWN_MS
    ensures fresh(m) && m.Valid()
    ensures second == Some(0)
    ensures m.HandlersOf(Subject).status == [1, 2]
    ensures m.sockets == map[0 := Socket(Subject, Url, Connecting)]
  {
    m := Requested(t0);
    m.On(Subject, StatusEvents, 2);
    assert m.Snapshot().Classify(Subject, t0 + dt) == Reuse(0);
    var ignored;
    second, ignored := m.GetConnection(Subject, Url, t0 + dt, Constructed);
  }

  /**
   * Two callers ask for the same subject, the second at any later time
   * while the first socket is still connecting: both get the same socket,
   * only one socket exists, and when it opens both status subscribers hear
   * `true`, in subscription order.
   */
  method SharedConnection(t0: int, dt: nat) returns (second: Option<SocketId>, count: nat, openCalls: seq<Call>)
    requires t0 >= COOLDOWN_MS
    ensures second == Some(0) && count == 1
    ensures openCalls == [Call(StatusEvents, 1, Connected(true)), Call(StatusEvents, 2, Connected(true))]
  {
    var m;
    m, second := Joined(t0, dt);
    count := |m.sockets|;
    openCalls := m.OnOpen(0);
    assert openCalls == FanOut(StatusEvents, [1, 2], Connected(true));
  }

  /**
   * A constructor that throws reports the failure to the error subscribers
   * and counts as an attempt: a retry less than 500 ms later returns `null`
   * without trying, one 500 ms later creates the socket.
   */
  method FailedAttemptCooldown(t0: int, dt: int) returns (first: Option<SocketId>, errors: seq<Call>,
                                                          second: Option<SocketId>, third: Option<SocketId>)
    requires t0 >= COOLDOWN_MS && 0 <= dt < COOLDOWN_MS
    ensures first == None && errors == [Call(ErrorEvents, 7, Failure(CreateFailure("refused")))]
    ensures second == None
    ensures third.Some?
  {
    var m := Subscribed();
    var ignored: seq<Call>;
    assert m.Snapshot().Classify(Subject, t0) == Create;
    first, errors := m.GetConnection(Subject, Url, t0, Threw("refused"));
    assert errors == FanOut(ErrorEvents, [7], Failure(CreateFailure("refused")));
    assert m.Snapshot().Classify(Subject, t0 + dt) == Cooldown;
    second, ignored := m.GetConnection(Subject, Url, t0 + dt, Constructed);
    assert m.Snapshot().Classify(Subject, t0 + COOLDOWN_MS) == Create;
    third, ignored := m.GetConnection(Subject, Url, t0 + COOLDOWN_MS, Constructed);
  }

  /**
   * `closeConnection` followed by the close event (code 1000): subscribers
   * hear `false`, the subject has no registered socket and no ping timer,
   * and no reconnection is scheduled.
   */
  method ManualCloseDoesNotReconnect(t0: int) returns (closed: seq<Call>, registered: bool, pinging: bool, pending: nat)
    requires t0 >= COOLDOWN_MS
    ensures closed == [Call(StatusEvents, 1, Connected(false))]
    ensures !registered && !pinging && pending == 0
  {
    var m := ClosedByCaller(t0);
    closed := m.OnClose(0, NORMAL_CLOSURE);
    assert closed == FanOut(StatusEvents, [1], Connected(false));
    registered, pinging, pending := Subject in m.connections, Subject in m.pingIntervals, |m.reconnects|;
  }

  /**
   * A close with any code other than 1000 schedules one reconnection; when
   * it fires 1000 ms (or more) after the close, the cooldown has passed, so
   * a new socket to the same URL is created and the existing subscribers
   * keep their subscriptions.
   */
  method AbnormalCloseReconnects(t0: int, closedAt: int, lag: nat, code: int)
    returns (pending: seq<Reconnect>, again: Option<SocketId>, subscribers: seq<HandlerId>)
    requires t0 >= COOLDOWN_MS && closedAt >= t0 && code != NORMAL_CLOSURE
    ensures pending == [Reconnect(Subject, Url)]
    ensures again == Some(1)
    ensures subscribers == [1]
  {
    var m, ignored := Opened(t0);
    ignored := m.OnClose(0, code);
    pending := m.reconnects;
    assert m.Snapshot().Classify(Subject, closedAt + RECONNECT_DELAY_MS + lag) == Create;
    again, ignored := m.ReconnectTick(closedAt + RECONNECT_DELAY_MS + lag, Constructed);
    subscribers := m.HandlersOf(Subject).status;
  }

  /** `Opened`, then `closeConnection`: the socket is CLOSING and nothing is registered. */
  method ClosedByCaller(t0: int) returns (m: WebSocketManager)
    requires t0 >= COOLDOWN_MS
    ensures fresh(m) && m.Valid()
    ensures m.HandlersOf(Subject).status == [1]
    ensures m.sockets == map[0 := Socket(Subject, Url, Closing)] && m.connections == map[]
    ensures Subject !in m.pingIntervals
    ensures m.lastConnectionAttempt == map[Subject := t0]
    ensures m.reconnects == [] && m.nextSocket == 1
  {
    var ignored;
    m, ignored := Opened(t0);
    m.CloseConnection(Subject);
  }

  /** `ClosedByCaller`, then a new connection at `t1`: the old socket is CLOSING, the new one registered. */
  method Replaced(t0: int, t1: int) returns (m: WebSocketManager)
    requires t0 >= COOLDOWN_MS && t1 >= t0 + COOLDOWN_MS
    ensures fresh(m) && m.Valid()
    ensures m.HandlersOf(Subject).status == [1]
    ensures m.sockets == map[0 := Socket(Subject, Url, Closing), 1 := Socket(Subject, Url, Connecting)]
    ensures m.connections == map[Subject := 1]
    ensures m.reconnects == []
  {
    m := ClosedByCaller(t0);
    assert m.Snapshot().Classify(Subject, t1) == Create;
    var r, ignored := m.GetConnection(Subject, Url, t1, Constructed);
  }

  /**
   * A reconnect leaves the old socket's close event outstanding.  When it
   * arrives the new socket stays registered, but every status subscriber
   * still hears `false` although the new socket is live; if the code is
   * not 1000 the scheduled reconnection finds the new socket and hands it
   * back instead of creating a third.
   */
  method StaleCloseAfterReconnect(t0: int, t1: int, lag: nat, code: int)
    returns (heard: seq<Call>, registered: Option<SocketId>, retried: Option<SocketId>, count: nat)
    requires t0 >= COOLDOWN_MS && t1 >= t0 + COOLDOWN_MS
    ensures heard == [Call(StatusEvents, 1, Connected(false))]
    ensures registered == Some(1)
    ensures code != NORMAL_CLOSURE ==> retried == Some(1) && count == 2
  {
    var m := Replaced(t0, t1);
    heard := m.OnClose(0, code);
    assert heard == FanOut(StatusEvents, [1], Connected(false));
    registered := if Subject in m.connections then Some(m.connections[Subject]) else None;
    retried, count := None, |m.sockets|;
    if code != NORMAL_CLOSURE {
      var ignored;
      assert m.Snapshot().Classify(Subject, t1 + RECONNECT_DELAY_MS + lag) == Reuse(1);
      retried, ignored := m.ReconnectTick(t1 + RECONNECT_DELAY_MS + lag, Constructed);
      count := |m.sockets|;
    }
  }

  /**
   * On an open socket a ping frame is answered with a pong and still
   * delivered to the message subscribers (here one, subscribed after the
   * socket opened); the ping timer sends pings while
   * the socket is open and cancels itself once it is not.
   */
  method PingPong(t0: int) returns (answer: seq<Outbound>, delivered: seq<Call>, tick: seq<Outbound>,
                                    lateTick: seq<Outbound>, pinging: bool)
    requires t0 >= COOLDOWN_MS
    ensures answer == [Pong]
    ensures delivered == [Call(MessageEvents, 3, Data(Obj(map["type" := Str("ping")])))]
    ensures tick == [Ping] && lateTick == [] && !pinging
  {
    var m, ignored := Opened(t0);
    m.On(Subject, MessageEvents, 3);
    var frame := Obj(map["type" := Str("ping")]);
    assert HasType(frame, "ping");
    delivered, answer := m.OnMessage(0, Parsed(frame));
    assert delivered == FanOut(MessageEvents, [3], Data(frame));
    var t := m.pingIntervals[Subject];
    tick := m.PingTick(t);
    ignored := m.OnClose(0, NORMAL_CLOSURE);
    lateTick := m.PingTick(t);
    pinging := Subject in m.pingIntervals;
  }

  /**
   * `Opened`, then the server starts the closing handshake (CLOSING)
   * without the manager knowing, and the caller asks to close: a registered
   * socket that is no longer live is left as it is.
   */
  method ServerStartedClosing(t0: int) returns (m: WebSocketManager)
    requires t0 >= COOLDOWN_MS
    ensures fresh(m) && m.Valid()
    ensures m.connections == map[Subject := 0] && m.sockets == map[0 := Socket(Subject, Url, Closing)]
    ensures m.lastConnectionAttempt == map[Subject := t0] && m.nextSocket == 1
  {
    var ignored;
    m, ignored := Opened(t0);
    m.Drop(0, Closing);
    m.CloseConnection(Subject);
  }

  /**
   * After `ServerStartedClosing`, the next request after the cooldown
   * creates a new socket for the subject while the old one is still
   * closing.
   */
  method ServerClosing(t0: int, dt: int) returns (m: WebSocketManager, reopened: Option<SocketId>)
    requires t0 >= COOLDOWN_MS && dt >= COOLDOWN_MS
    ensures fresh(m) && m.Valid()
    ensures reopened == Some(1)
    ensures m.connections == map[Subject := 1]
    ensures m.sockets == map[0 := Socket(Subject, Url, Closing), 1 := Socket(Subject, Url, Connecting)]
  {
    m := ServerStartedClosing(t0);
    assert m.Snapshot().Classify(Subject, t0 + dt) == Create;
    var ignored;
    reopened, ignored := m.GetConnection(Subject, Url, t0 + dt, Constructed);
  }
}
