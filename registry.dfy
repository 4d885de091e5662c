/**
 * The process-wide WebSocket registry: at most one live socket per subject
 * id (a collection id or a job id), a 500 ms cooldown between connection
 * attempts, subscriber fan-out, keep-alive pings and automatic reconnection
 * after an abnormal close.
 *
 * The browser's sockets and timers are modelled by the tables the manager
 * drives: `sockets` holds every socket it ever constructed (with the subject
 * id and URL its callbacks captured, and its ready state), `timers` the
 * running ping intervals, and `reconnects` the reconnection timeouts not yet
 * fired.  Each browser callback is a method that returns the handler calls
 * and frames it produces, in order.
 */
module Registry {
  import opened Wrappers
  import opened Wire
  import opened Subscribers

  type SocketId = nat
  type TimerId = nat

  const COOLDOWN_MS := 500
  const PING_INTERVAL_MS := 30000
  const RECONNECT_DELAY_MS := 1000
  /** "Normal Closure", section 7.4.1 of RFC 6455. */
  const NORMAL_CLOSURE := 1000

  const PARSE_FAILURE := "Failed to parse WebSocket message"
  const CONNECTION_ERROR := "WebSocket connection error"

  /** The message of the error reported when the socket constructor throws. */
  function CreateFailure(reason: string): string {
    "Failed to create WebSocket: " + reason
  }

  /** `WebSocket.readyState`. */
  datatype ReadyState = Connecting | Open | Closing | Closed

  /** The numeric constants `WebSocket.CONNECTING` .. `WebSocket.CLOSED`. */
  function Code(s: ReadyState): int {
    match s
    case Connecting => 0
    case Open => 1
    case Closing => 2
    case Closed => 3
  }

  /** `getReadyStateString`: the name of a numeric ready state. */
  function ReadyStateString(state: int): (r: string)
    ensures r == "UNKNOWN" <==> !(0 <= state <= 3)
    ensures forall s: ReadyState :: state == Code(s) ==> r == StateName(s)
  {
    if state == 0 then "CONNECTING"
    else if state == 1 then "OPEN"
    else if state == 2 then "CLOSING"
    else if state == 3 then "CLOSED"
    else "UNKNOWN"
  }

  function StateName(s: ReadyState): string {
    match s
    case Connecting => "CONNECTING"
    case Open => "OPEN"
    case Closing => "CLOSING"
    case Closed => "CLOSED"
  }

  /** Distinct ready states have distinct names, so the name identifies the state. */
  lemma ReadyStateStringInjective(a: ReadyState, b: ReadyState)
    requires ReadyStateString(Code(a)) == ReadyStateString(Code(b))
    ensures a == b
  {
    assert ReadyStateString(Code(a)) == StateName(a);
    assert ReadyStateString(Code(b)) == StateName(b);
  }

  /** A socket the manager reuses instead of replacing: OPEN or CONNECTING. */
  predicate Live(s: ReadyState) {
    s == Open || s == Connecting
  }

  /** A constructed socket: the subject id and URL its callbacks captured, and its state. */
  datatype Socket = Socket(subject: string, url: string, state: ReadyState)

  /** A running ping interval and the subject id and socket it captured. */
  datatype PingTimer = PingTimer(subject: string, socket: SocketId)

  /** A pending `setTimeout(() => getConnection(subject, url), 1000)`. */
  datatype Reconnect = Reconnect(subject: string, url: string)

  /** What `new WebSocket(url)` did: returned a socket, or threw an error with a message. */
  datatype Construction = Constructed | Threw(message: string)

  /** The calls and the frames sent by one callback. */
  datatype Effects = Effects(calls: seq<Call>, sent: seq<Outbound>)

  /** The category-specific step of message dispatch. */
  function Routed(b: Buckets, d: Value): seq<Call> {
    if HasType(d, "script_generated") then
      if Truthy(Field(d, "script_id")) then
        FanOut(ScriptGeneratedEvents, b.scriptGenerated, ScriptId(Field(d, "script_id").value))
      else []
    else if HasType(d, "job_complete") then FanOut(JobCompleteEvents, b.jobComplete, Data(d))
    else []
  }

  /**
   * `onmessage`: what one inbound frame produces, given the subject's
   * handler sets.  Reading `.type` of a parsed `null` throws inside the same
   * `try` block as the parse, so it takes the parse-failure path.
   */
  function Dispatch(b: Buckets, frame: Inbound): Effects {
    if frame.Malformed? || frame.data.Null? then
      Effects(FanOut(ErrorEvents, b.error, Failure(PARSE_FAILURE)), [])
    else
      var d := frame.data;
      Effects(Routed(b, d) + FanOut(MessageEvents, b.message, Data(d)),
              if HasType(d, "ping") then [Pong] else [])
  }

  /** A frame the manager fails to decode reaches every error handler once and nothing else. */
  lemma DispatchMalformed(b: Buckets, frame: Inbound, c: Category, h: HandlerId)
    requires b.Valid()
    requires frame.Malformed? || frame.data.Null?
    ensures Dispatch(b, frame).sent == []
    ensures CallsTo(Dispatch(b, frame).calls, c, h) == if c == ErrorEvents && h in b.error then 1 else 0
    ensures forall k :: 0 <= k < |Dispatch(b, frame).calls| ==>
              Dispatch(b, frame).calls[k].arg == Failure(PARSE_FAILURE)
  {
    if c == ErrorEvents {
      FanOutOnce(ErrorEvents, b.error, Failure(PARSE_FAILURE), h);
    } else {
      FanOutOtherCategory(ErrorEvents, b.error, Failure(PARSE_FAILURE), c, h);
    }
  }

  /**
   * Every decoded frame reaches every message handler exactly once, after
   * the category-specific handlers: the message fan-out is the tail of the calls.
   */
  lemma DispatchDeliversOnce(b: Buckets, d: Value, h: HandlerId)
    requires b.Valid() && !d.Null?
    ensures CallsTo(Dispatch(b, Parsed(d)).calls, MessageEvents, h) == if h in b.message then 1 else 0
    ensures Dispatch(b, Parsed(d)).calls == Routed(b, d) + FanOut(MessageEvents, b.message, Data(d))
  {
    var routed := Routed(b, d);
    CallsToAppend(routed, FanOut(MessageEvents, b.message, Data(d)), MessageEvents, h);
    FanOutOnce(MessageEvents, b.message, Data(d), h);
    if HasType(d, "script_generated") && Truthy(Field(d, "script_id")) {
      FanOutOtherCategory(ScriptGeneratedEvents, b.scriptGenerated, ScriptId(Field(d, "script_id").value), MessageEvents, h);
    } else if !HasType(d, "script_generated") && HasType(d, "job_complete") {
      FanOutOtherCategory(JobCompleteEvents, b.jobComplete, Data(d), MessageEvents, h);
    }
  }

  /** A ping is answered with exactly one pong and still reaches the message handlers; nothing else sends. */
  lemma DispatchPing(b: Buckets, d: Value)
    requires !d.Null?
    ensures Dispatch(b, Parsed(d)).sent == if HasType(d, "ping") then [Pong] else []
    ensures HasType(d, "ping") ==> Dispatch(b, Parsed(d)).calls == FanOut(MessageEvents, b.message, Data(d))
  {
    if HasType(d, "ping") {
      assert !HasType(d, "script_generated") && !HasType(d, "job_complete");
      assert Routed(b, d) == [];
    }
  }

  /**
   * `script_generated` with a truthy `script_id` hands only that id to each
   * script_generated handler, once; without one, none of them is called.
   */
  lemma DispatchScriptGenerated(b: Buckets, d: Value, h: HandlerId)
    requires b.Valid() && HasType(d, "script_generated")
    ensures Truthy(Field(d, "script_id")) ==>
              CallsTo(Dispatch(b, Parsed(d)).calls, ScriptGeneratedEvents, h) == (if h in b.scriptGenerated then 1 else 0)
              && Dispatch(b, Parsed(d)).calls[..|b.scriptGenerated|]
                 == FanOut(ScriptGeneratedEvents, b.scriptGenerated, ScriptId(Field(d, "script_id").value))
    ensures !Truthy(Field(d, "script_id")) ==>
              Dispatch(b, Parsed(d)).calls == FanOut(MessageEvents, b.message, Data(d))
    ensures CallsTo(Dispatch(b, Parsed(d)).calls, JobCompleteEvents, h) == 0
  {
    var msgs := FanOut(MessageEvents, b.message, Data(d));
    FanOutOtherCategory(MessageEvents, b.message, Data(d), ScriptGeneratedEvents, h);
    FanOutOtherCategory(MessageEvents, b.message, Data(d), JobCompleteEvents, h);
    if Truthy(Field(d, "script_id")) {
      var sg := FanOut(ScriptGeneratedEvents, b.scriptGenerated, ScriptId(Field(d, "script_id").value));
      CallsToAppend(sg, msgs, ScriptGeneratedEvents, h);
      CallsToAppend(sg, msgs, JobCompleteEvents, h);
      FanOutOnce(ScriptGeneratedEvents, b.scriptGenerated, ScriptId(Field(d, "script_id").value), h);
      FanOutOtherCategory(ScriptGeneratedEvents, b.scriptGenerated, ScriptId(Field(d, "script_id").value), JobCompleteEvents, h);
      assert (sg + msgs)[..|sg|] == sg;
    }
  }

  /** `job_complete` hands the whole frame to each job_complete handler, once, and calls no script_generated handler. */
  lemma DispatchJobComplete(b: Buckets, d: Value, h: HandlerId)
    requires b.Valid() && HasType(d, "job_complete")
    ensures CallsTo(Dispatch(b, Parsed(d)).calls, JobCompleteEvents, h) == if h in b.jobComplete then 1 else 0
    ensures CallsTo(Dispatch(b, Parsed(d)).calls, ScriptGeneratedEvents, h) == 0
    ensures Dispatch(b, Parsed(d)).calls
            == FanOut(JobCompleteEvents, b.jobComplete, Data(d)) + FanOut(MessageEvents, b.message, Data(d))
  {
    assert !HasType(d, "script_generated");
    var jc := FanOut(JobCompleteEvents, b.jobComplete, Data(d));
    var msgs := FanOut(MessageEvents, b.message, Data(d));
    CallsToAppend(jc, msgs, JobCompleteEvents, h);
    CallsToAppend(jc, msgs, ScriptGeneratedEvents, h);
    FanOutOnce(JobCompleteEvents, b.jobComplete, Data(d), h);
    FanOutOtherCategory(JobCompleteEvents, b.jobComplete, Data(d), ScriptGeneratedEvents, h);
    FanOutOtherCategory(MessageEvents, b.message, Data(d), JobCompleteEvents, h);
    FanOutOtherCategory(MessageEvents, b.message, Data(d), ScriptGeneratedEvents, h);
  }

  /** `job_status`, `pong` and unknown types reach the message handlers only. */
  lemma DispatchOtherTypes(b: Buckets, d: Value)
    requires !d.Null? && !HasType(d, "script_generated") && !HasType(d, "job_complete")
    ensures Dispatch(b, Parsed(d)).calls == FanOut(MessageEvents, b.message, Data(d))
  {
    assert Routed(b, d) == [];
  }

  /** Registered sockets belong to their key; a live socket is the registered one for its subject. */
  ghost predicate SocketsOk(connections: map<string, SocketId>, sockets: map<SocketId, Socket>, nextSocket: SocketId) {
    && (forall id :: id in connections ==>
          connections[id] in sockets && sockets[connections[id]].subject == id)
    && (forall s :: s in sockets && Live(sockets[s].state) ==>
          sockets[s].subject in connections && connections[sockets[s].subject] == s)
    && (forall s :: s in sockets ==> s < nextSocket)
  }

  /** Running ping timers and the `pingIntervals` entries correspond one to one. */
  ghost predicate TimersOk(pingIntervals: map<string, TimerId>, timers: map<TimerId, PingTimer>,
                           sockets: map<SocketId, Socket>, nextTimer: TimerId) {
    && (forall t :: t in timers ==>
          t < nextTimer && timers[t].socket in sockets
          && timers[t].subject in pingIntervals && pingIntervals[timers[t].subject] == t)
    && (forall id :: id in pingIntervals ==>
          pingIntervals[id] in timers && timers[pingIntervals[id]].subject == id)
  }

  ghost predicate HandlersOk(eventHandlers: map<string, Buckets>) {
    forall id :: id in eventHandlers ==> eventHandlers[id].Valid()
  }

  /** Registering a fresh CONNECTING socket for a subject whose registered socket is not live keeps the invariant. */
  lemma SocketsOkCreate(connections: map<string, SocketId>, sockets: map<SocketId, Socket>, nextSocket: SocketId,
                        id: string, url: string)
    requires SocketsOk(connections, sockets, nextSocket)
    requires id in connections ==> !Live(sockets[connections[id]].state)
    ensures SocketsOk(connections[id := nextSocket], sockets[nextSocket := Socket(id, url, Connecting)], nextSocket + 1)
  {
    var c', s' := connections[id := nextSocket], sockets[nextSocket := Socket(id, url, Connecting)];
    forall s | s in s' && Live(s'[s].state)
      ensures s'[s].subject in c' && c'[s'[s].subject] == s
    {
      if s != nextSocket {
        assert s in sockets && s'[s] == sockets[s];
        assert sockets[s].subject != id;
      }
    }
  }

  /** A socket that closes leaves the registry, if it is still the registered one, and the invariant holds. */
  lemma SocketsOkClose(connections: map<string, SocketId>, sockets: map<SocketId, Socket>, nextSocket: SocketId,
                       s: SocketId)
    requires SocketsOk(connections, sockets, nextSocket) && s in sockets
    ensures var id := sockets[s].subject;
            SocketsOk(if id in connections && connections[id] == s then connections - {id} else connections,
                      sockets[s := sockets[s].(state := Closed)], nextSocket)
  {
    var id := sockets[s].subject;
    var c' := if id in connections && connections[id] == s then connections - {id} else connections;
    var s' := sockets[s := sockets[s].(state := Closed)];
    forall x | x in c' ensures c'[x] in s' && s'[c'[x]].subject == x {
      assert c'[x] == connections[x];
    }
    forall t | t in s' && Live(s'[t].state) ensures s'[t].subject in c' && c'[s'[t].subject] == t {
      assert t != s && s'[t] == sockets[t];
    }
  }

  /** A socket that stops being live without the manager's involvement keeps the invariant. */
  lemma SocketsOkDrop(connections: map<string, SocketId>, sockets: map<SocketId, Socket>, nextSocket: SocketId,
                      s: SocketId, to: ReadyState)
    requires SocketsOk(connections, sockets, nextSocket) && s in sockets && !Live(to)
    ensures SocketsOk(connections, sockets[s := sockets[s].(state := to)], nextSocket)
  {
    var s' := sockets[s := sockets[s].(state := to)];
    forall t | t in s' && Live(s'[t].state) ensures s'[t].subject in connections && connections[s'[t].subject] == t {
      assert t != s && s'[t] == sockets[t];
    }
  }

  /** The timer invariant looks only at which sockets exist, not at their states. */
  lemma TimersOkSameSockets(pingIntervals: map<string, TimerId>, timers: map<TimerId, PingTimer>,
                            sockets: map<SocketId, Socket>, sockets': map<SocketId, Socket>, nextTimer: TimerId)
    requires TimersOk(pingIntervals, timers, sockets, nextTimer) && sockets'.Keys == sockets.Keys
    ensures TimersOk(pingIntervals, timers, sockets', nextTimer)
  {
  }

  /** Forgetting a subject's registered socket after moving it to CLOSING keeps the invariant. */
  lemma SocketsOkRetire(connections: map<string, SocketId>, sockets: map<SocketId, Socket>, nextSocket: SocketId, id: string)
    requires SocketsOk(connections, sockets, nextSocket) && id in connections
    ensures SocketsOk(connections - {id}, sockets[connections[id] := sockets[connections[id]].(state := Closing)], nextSocket)
  {
    var c', s' := connections - {id}, sockets[connections[id] := sockets[connections[id]].(state := Closing)];
    forall x | x in c'
      ensures c'[x] in s' && s'[c'[x]].subject == x
    {
      assert c'[x] == connections[x] && connections[x] in sockets;
    }
  }

  /** Cancelling a subject's ping timer and dropping its entry keeps the timers' invariant. */
  lemma TimersOkCancel(pingIntervals: map<string, TimerId>, timers: map<TimerId, PingTimer>,
                       sockets: map<SocketId, Socket>, nextTimer: TimerId, id: string)
    requires TimersOk(pingIntervals, timers, sockets, nextTimer) && id in pingIntervals
    ensures TimersOk(pingIntervals - {id}, timers - {pingIntervals[id]}, sockets, nextTimer)
  {
  }

  /** Adding sockets or changing their states keeps the timers' invariant. */
  lemma TimersOkMoreSockets(pingIntervals: map<string, TimerId>, timers: map<TimerId, PingTimer>,
                            sockets: map<SocketId, Socket>, sockets': map<SocketId, Socket>, nextTimer: TimerId)
    requires TimersOk(pingIntervals, timers, sockets, nextTimer)
    requires sockets.Keys <= sockets'.Keys
    ensures TimersOk(pingIntervals, timers, sockets', nextTimer)
  {
  }

  /** The outcome of `getConnection`'s guards, before anything is constructed. */
  datatype Attempt = NoId | Reuse(socket: SocketId) | Cooldown | Create

  /** The part of the manager's state `getConnection` reads and writes. */
  datatype Pool = Pool(connections: map<string, SocketId>, sockets: map<SocketId, Socket>,
                       lastConnectionAttempt: map<string, int>, nextSocket: SocketId)
  {
    /** `this.lastConnectionAttempt.get(id) || 0` */
    function LastAttempt(id: string): int {
      if id in lastConnectionAttempt then lastConnectionAttempt[id] else 0
    }

    /** Which branch of `getConnection` a call at time `now` takes. */
    function Classify(id: string, now: int): (a: Attempt)
      ensures a.Reuse? ==> id in connections && a.socket == connections[id] && a.socket in sockets
                           && Live(sockets[a.socket].state)
      ensures a.Create? ==> id != "" && now - LastAttempt(id) >= COOLDOWN_MS
      ensures a.Cooldown? ==> id != "" && now - LastAttempt(id) < COOLDOWN_MS
    {
      if id == "" then NoId
      else if id in connections && connections[id] in sockets && Live(sockets[connections[id]].state)
      then Reuse(connections[id])
      else if now - LastAttempt(id) < COOLDOWN_MS then Cooldown
      else Create
    }
  }

  /**
   * What `getConnection(id, wsUrl)` at time `now` does, by the branch it
   * takes from `before`: no id, a live socket to reuse and a cooldown since
   * the last attempt change nothing and make no calls; a creation records
   * the attempt, then either registers a new CONNECTING socket under the id
   * or, when the constructor throws, calls each of the subject's error
   * handlers `errs` once with the wrapped message.
   */
  ghost predicate Connects(id: string, wsUrl: string, now: int, construction: Construction,
                           errs: seq<HandlerId>, before: Pool, r: Option<SocketId>, calls: seq<Call>, after: Pool)
  {
    var a := before.Classify(id, now);
    && (a.NoId? || a.Cooldown? || a.Reuse? ==>
          r == (if a.Reuse? then Some(a.socket) else None) && calls == [] && after == before)
    && (a.Create? ==> after.lastConnectionAttempt == before.lastConnectionAttempt[id := now])
    && (a.Create? && construction.Constructed? ==>
          && r == Some(before.nextSocket) && calls == []
          && after.sockets == before.sockets[before.nextSocket := Socket(id, wsUrl, Connecting)]
          && after.connections == before.connections[id := before.nextSocket]
          && after.nextSocket == before.nextSocket + 1)
    && (a.Create? && construction.Threw? ==>
          && r == None && calls == FanOut(ErrorEvents, errs, Failure(CreateFailure(construction.message)))
          && after.connections == before.connections && after.sockets == before.sockets
          && after.nextSocket == before.nextSocket)
  }

  class WebSocketManager {
    var connections: map<string, SocketId>
    var lastConnectionAttempt: map<string, int>
    var eventHandlers: map<string, Buckets>
    var pingIntervals: map<string, TimerId>

    // The runtime side: sockets and timers the manager created.
    var sockets: map<SocketId, Socket>
    var timers: map<TimerId, PingTimer>
    var reconnects: seq<Reconnect>
    var nextSocket: SocketId
    var nextTimer: TimerId

    /**
     * The registry's invariant: every registered socket belongs to its key,
     * every live socket is the registered one for its subject (so a subject
     * has at most one live socket), every running ping timer is the one
     * recorded for its subject (so a subject has at most one), and handler
     * sets hold no repeats.
     */
    ghost predicate Valid()
      reads this
    {
      && SocketsOk(connections, sockets, nextSocket)
      && TimersOk(pingIntervals, timers, sockets, nextTimer)
      && HandlersOk(eventHandlers)
    }

    constructor ()
      ensures Valid()
      ensures connections == map[] && lastConnectionAttempt == map[] && eventHandlers == map[]
      ensures pingIntervals == map[] && sockets == map[] && timers == map[] && reconnects == []
      ensures nextSocket == 0 && nextTimer == 0
    {
      connections, lastConnectionAttempt, eventHandlers, pingIntervals := map[], map[], map[], map[];
      sockets, timers, reconnects := map[], map[], [];
      nextSocket, nextTimer := 0, 0;
    }

    /** `this.eventHandlers.get(id)`, where a missing entry behaves as five empty sets. */
    function HandlersOf(id: string): (b: Buckets)
      reads this
      ensures id !in eventHandlers ==> b == NoHandlers
    {
      if id in eventHandlers then eventHandlers[id] else NoHandlers
    }

    function Snapshot(): Pool
      reads this
    {
      Pool(connections, sockets, lastConnectionAttempt, nextSocket)
    }

    /** `socket.readyState` of a socket the manager created. */
    function StateOf(s: SocketId): ReadyState
      reads this
    {
      if s in sockets then sockets[s].state else Closed
    }

    /**
     * `getConnection(id, wsUrl)` at time `now`; `construction` is what the
     * socket constructor did.  Returns the socket (or `None` for `null`) and
     * the error-handler calls made when construction throws.
     */
    method GetConnection(id: string, wsUrl: string, now: int, construction: Construction)
      returns (r: Option<SocketId>, calls: seq<Call>)
      requires Valid()
      modifies this
      ensures Valid()
      ensures Connects(id, wsUrl, now, construction, old(HandlersOf(id)).error, old(Snapshot()), r, calls, Snapshot())
      ensures eventHandlers == if old(Snapshot()).Classify(id, now).Create? && construction.Constructed?
                                  && id !in old(eventHandlers)
                               then old(eventHandlers)[id := NoHandlers] else old(eventHandlers)
      ensures pingIntervals == old(pingIntervals) && timers == old(timers)
      ensures reconnects == old(reconnects) && nextTimer == old(nextTimer)
    {
      if id == "" {
        return None, [];
      }
      if id in connections {
        var existing := connections[id];
        if sockets[existing].state == Open || sockets[existing].state == Connecting {
          return Some(existing), [];
        }
      }
      var lastAttempt := if id in lastConnectionAttempt then lastConnectionAttempt[id] else 0;
      if now - lastAttempt < COOLDOWN_MS {
        return None, [];
      }
      lastConnectionAttempt := lastConnectionAttempt[id := now];
      match construction
      case Threw(message) =>
        calls := Notify(ErrorEvents, HandlersOf(id).error, Failure(CreateFailure(message)));
        r := None;
      case Constructed =>
        var socket := Register(id, wsUrl);
        r, calls := Some(socket), [];
    }

    /**
     * The success path of `getConnection` after the guards: record the new
     * CONNECTING socket under `id` and create the subject's handler sets if
     * they do not exist yet (existing subscribers survive a reconnect).
     */
    method Register(id: string, wsUrl: string) returns (socket: SocketId)
      requires Valid()
      requires id in connections ==> !Live(sockets[connections[id]].state)
      modifies this`sockets, this`nextSocket, this`connections, this`eventHandlers
      ensures Valid()
      ensures socket == old(nextSocket) && nextSocket == old(nextSocket) + 1
      ensures sockets == old(sockets)[socket := Socket(id, wsUrl, Connecting)]
      ensures connections == old(connections)[id := socket]
      ensures eventHandlers == if id in old(eventHandlers) then old(eventHandlers)
                               else old(eventHandlers)[id := NoHandlers]
    {
      socket := nextSocket;
      var sockets' := sockets[socket := Socket(id, wsUrl, Connecting)];
      SocketsOkCreate(connections, sockets, nextSocket, id, wsUrl);
      TimersOkMoreSockets(pingIntervals, timers, sockets, sockets', nextTimer);
      var handlers' := if id in eventHandlers then eventHandlers else eventHandlers[id := NoHandlers];
      sockets, nextSocket, connections, eventHandlers := sockets', nextSocket + 1, connections[id := socket], handlers';
    }

    /** `on(id, event, handler)`: creates the five sets if absent, then adds the handler. */
    method On(id: string, c: Category, h: HandlerId)
      requires Valid()
      modifies this`eventHandlers
      ensures Valid()
      ensures eventHandlers == old(eventHandlers)[id := Add(old(HandlersOf(id)), c, h)]
      ensures connections == old(connections) && lastConnectionAttempt == old(lastConnectionAttempt)
      ensures pingIntervals == old(pingIntervals) && sockets == old(sockets) && timers == old(timers)
      ensures reconnects == old(reconnects) && nextSocket == old(nextSocket) && nextTimer == old(nextTimer)
    {
      var b := HandlersOf(id);
      assert b.Valid();
      eventHandlers := eventHandlers[id := Add(b, c, h)];
    }

    /** `off(id, event, handler)`: removes that handler; no effect for an unknown id. */
    method Off(id: string, c: Category, h: HandlerId)
      requires Valid()
      modifies this`eventHandlers
      ensures Valid()
      ensures eventHandlers == if id in old(eventHandlers)
                               then old(eventHandlers)[id := Remove(old(eventHandlers[id]), c, h)]
                               else old(eventHandlers)
      ensures connections == old(connections) && lastConnectionAttempt == old(lastConnectionAttempt)
      ensures pingIntervals == old(pingIntervals) && sockets == old(sockets) && timers == old(timers)
      ensures reconnects == old(reconnects) && nextSocket == old(nextSocket) && nextTimer == old(nextTimer)
    {
      if id in eventHandlers {
        eventHandlers := eventHandlers[id := Remove(eventHandlers[id], c, h)];
      }
    }

    /** `unregisterAllHandlers(id)`: empties the five sets; the connection is not touched. */
    method UnregisterAllHandlers(id: string)
      requires Valid()
      modifies this
      ensures Valid()
      ensures eventHandlers == if id in old(eventHandlers) then old(eventHandlers)[id := NoHandlers]
                               else old(eventHandlers)
      ensures connections == old(connections) && lastConnectionAttempt == old(lastConnectionAttempt)
      ensures pingIntervals == old(pingIntervals) && sockets == old(sockets) && timers == old(timers)
      ensures reconnects == old(reconnects) && nextSocket == old(nextSocket) && nextTimer == old(nextTimer)
    {
      if id in eventHandlers {
        eventHandlers := eventHandlers[id := NoHandlers];
      }
    }

    /**
     * `closeConnection(id)`: when the registered socket is neither CLOSING
     * nor CLOSED, starts its close handshake with code 1000, forgets it and
     * cancels its ping timer.  Otherwise nothing happens.
     */
    method CloseConnection(id: string)
      requires Valid()
      modifies this
      ensures Valid()
      ensures !(id in old(connections) && Live(old(sockets[connections[id]].state))) ==> unchanged(this)
      ensures id in old(connections) && Live(old(sockets[connections[id]].state)) ==>
                && sockets == old(sockets)[old(connections[id]) := old(sockets[connections[id]]).(state := Closing)]
                && connections == old(connections) - {id}
                && pingIntervals == old(pingIntervals) - {id}
                && timers == (if id in old(pingIntervals) then old(timers) - {old(pingIntervals[id])} else old(timers))
                && eventHandlers == old(eventHandlers) && lastConnectionAttempt == old(lastConnectionAttempt)
                && reconnects == old(reconnects) && nextSocket == old(nextSocket) && nextTimer == old(nextTimer)
    {
      if id in connections && Live(sockets[connections[id]].state) {
        Retire(id);
      }
    }

    /** The acting branch of `closeConnection`: the registered socket is live. */
    method Retire(id: string)
      requires Valid() && id in connections && Live(sockets[connections[id]].state)
      modifies this`sockets, this`connections, this`pingIntervals, this`timers
      ensures Valid()
      ensures sockets == old(sockets)[old(connections[id]) := old(sockets[connections[id]]).(state := Closing)]
      ensures connections == old(connections) - {id}
      ensures pingIntervals == old(pingIntervals) - {id}
      ensures timers == (if id in old(pingIntervals) then old(timers) - {old(pingIntervals[id])} else old(timers))
    {
      var socket := connections[id];
      var sockets' := sockets[socket := sockets[socket].(state := Closing)];
      SocketsOkRetire(connections, sockets, nextSocket, id);
      TimersOkMoreSockets(pingIntervals, timers, sockets, sockets', nextTimer);
      sockets, connections := sockets', connections - {id};
      CancelPing(id);
    }

    /** Stops the subject's ping timer, if it has one, and forgets it. */
    method CancelPing(id: string)
      requires Valid()
      modifies this`pingIntervals, this`timers
      ensures Valid()
      ensures pingIntervals == old(pingIntervals) - {id}
      ensures timers == (if id in old(pingIntervals) then old(timers) - {old(pingIntervals[id])} else old(timers))
    {
      if id in pingIntervals {
        TimersOkCancel(pingIntervals, timers, sockets, nextTimer, id);
        timers, pingIntervals := timers - {pingIntervals[id]}, pingIntervals - {id};
      }
    }

    /**
     * `setupPingInterval(id, socket)`: cancels the subject's running ping
     * timer, if any, and starts a new one for `socket`.
     */
    method SetupPingInterval(id: string, socket: SocketId)
      requires Valid() && socket in sockets && sockets[socket].subject == id
      modifies this
      ensures Valid()
      ensures pingIntervals == old(pingIntervals)[id := old(nextTimer)]
      ensures timers == (if id in old(pingIntervals) then old(timers) - {old(pingIntervals[id])} else old(timers))
                        [old(nextTimer) := PingTimer(id, socket)]
      ensures nextTimer == old(nextTimer) + 1
      ensures connections == old(connections) && lastConnectionAttempt == old(lastConnectionAttempt)
      ensures eventHandlers == old(eventHandlers) && sockets == old(sockets)
      ensures reconnects == old(reconnects) && nextSocket == old(nextSocket)
    {
      if id in pingIntervals {
        timers := timers - {pingIntervals[id]};
      }
      var interval := nextTimer;
      nextTimer := nextTimer + 1;
      timers := timers[interval := PingTimer(id, socket)];
      pingIntervals := pingIntervals[id := interval];
    }

    /** `socket.onopen`: every status handler hears `true`, then the ping timer is (re)started. */
    method OnOpen(s: SocketId) returns (calls: seq<Call>)
      requires Valid() && s in sockets && sockets[s].state == Connecting
      modifies this
      ensures Valid()
      ensures calls == FanOut(StatusEvents, old(HandlersOf(sockets[s].subject)).status, Connected(true))
      ensures sockets == old(sockets)[s := old(sockets[s]).(state := Open)]
      ensures var id := old(sockets[s].subject);
              && pingIntervals == old(pingIntervals)[id := old(nextTimer)]
              && timers == (if id in old(pingIntervals) then old(timers) - {old(pingIntervals[id])} else old(timers))
                           [old(nextTimer) := PingTimer(id, s)]
      ensures nextTimer == old(nextTimer) + 1
      ensures connections == old(connections) && lastConnectionAttempt == old(lastConnectionAttempt)
      ensures eventHandlers == old(eventHandlers) && reconnects == old(reconnects) && nextSocket == old(nextSocket)
    {
      var id := sockets[s].subject;
      sockets := sockets[s := sockets[s].(state := Open)];
      calls := Notify(StatusEvents, HandlersOf(id).status, Connected(true));
      SetupPingInterval(id, s);
    }

    /** `socket.onmessage`: dispatches one frame; it changes no state. */
    method OnMessage(s: SocketId, frame: Inbound) returns (calls: seq<Call>, sent: seq<Outbound>)
      requires s in sockets
      ensures Effects(calls, sent) == Dispatch(HandlersOf(sockets[s].subject), frame)
    {
      var handlers := HandlersOf(sockets[s].subject);
      if frame.Malformed? || frame.data.Null? {
        calls := Notify(ErrorEvents, handlers.error, Failure(PARSE_FAILURE));
        sent := [];
        return;
      }
      var data := frame.data;
      calls, sent := [], [];
      if HasType(data, "ping") {
        sent := [Pong];
      } else if HasType(data, "script_generated") {
        if Truthy(Field(data, "script_id")) {
          calls := Notify(ScriptGeneratedEvents, handlers.scriptGenerated, ScriptId(Field(data, "script_id").value));
        }
      } else if HasType(data, "job_status") {
      } else if HasType(data, "job_complete") {
        calls := Notify(JobCompleteEvents, handlers.jobComplete, Data(data));
      }
      var delivered := Notify(MessageEvents, handlers.message, Data(data));
      calls := calls + delivered;
    }

    /** `socket.onerror`: every error handler, then every status handler with `false`; no state changes. */
    method OnError(s: SocketId) returns (calls: seq<Call>)
      requires s in sockets
      ensures calls == FanOut(ErrorEvents, HandlersOf(sockets[s].subject).error, Failure(CONNECTION_ERROR))
                       + FanOut(StatusEvents, HandlersOf(sockets[s].subject).status, Connected(false))
    {
      var handlers := HandlersOf(sockets[s].subject);
      var errors := Notify(ErrorEvents, handlers.error, Failure(CONNECTION_ERROR));
      var statuses := Notify(StatusEvents, handlers.status, Connected(false));
      calls := errors + statuses;
    }

    /**
     * The browser moves a live socket out of OPEN or CONNECTING on its own:
     * the server starts the closing handshake (CLOSING) or the connection
     * fails (CLOSED, before `onerror` and `onclose` fire).  The manager is
     * not told, so the socket stays registered until its close event.
     */
    method Drop(s: SocketId, to: ReadyState)
      requires Valid() && s in sockets && Live(sockets[s].state) && !Live(to)
      modifies this`sockets
      ensures Valid()
      ensures sockets == old(sockets)[s := old(sockets[s]).(state := to)]
    {
      var sockets' := sockets[s := sockets[s].(state := to)];
      SocketsOkDrop(connections, sockets, nextSocket, s, to);
      TimersOkSameSockets(pingIntervals, timers, sockets, sockets', nextTimer);
      sockets := sockets';
    }

    /**
     * `socket.onclose` with the close `code` the browser reports: every status
     * handler hears `false`; the registry entry is removed only if it is still
     * this socket; a reconnection is scheduled iff the code is not 1000.
     */
    method OnClose(s: SocketId, code: int) returns (calls: seq<Call>)
      requires Valid() && s in sockets
      modifies this
      ensures Valid()
      ensures calls == FanOut(StatusEvents, old(HandlersOf(sockets[s].subject)).status, Connected(false))
      ensures sockets == old(sockets)[s := old(sockets[s]).(state := Closed)]
      ensures var id := old(sockets[s].subject);
              connections == if id in old(connections) && old(connections[id]) == s then old(connections) - {id}
                             else old(connections)
      ensures reconnects == old(reconnects)
                            + if code != NORMAL_CLOSURE then [Reconnect(old(sockets[s].subject), old(sockets[s].url))] else []
      ensures lastConnectionAttempt == old(lastConnectionAttempt) && eventHandlers == old(eventHandlers)
      ensures pingIntervals == old(pingIntervals) && timers == old(timers)
      ensures nextSocket == old(nextSocket) && nextTimer == old(nextTimer)
    {
      var id := sockets[s].subject;
      var url := sockets[s].url;
      var sockets' := sockets[s := sockets[s].(state := Closed)];
      SocketsOkClose(connections, sockets, nextSocket, s);
      TimersOkSameSockets(pingIntervals, timers, sockets, sockets', nextTimer);
      calls := Notify(StatusEvents, HandlersOf(id).status, Connected(false));
      sockets := sockets';
      if id in connections && connections[id] == s {
        connections := connections - {id};
      }
      if code != NORMAL_CLOSURE {
        reconnects := reconnects + [Reconnect(id, url)];
      }
    }

    /**
     * One tick of a ping interval: sends a ping while its socket is OPEN;
     * otherwise the timer cancels itself and forgets the subject's entry.
     */
    method PingTick(t: TimerId) returns (sent: seq<Outbound>)
      requires Valid() && t in timers
      modifies this
      ensures Valid()
      ensures old(sockets[timers[t].socket].state) == Open ==> sent == [Ping] && unchanged(this)
      ensures old(sockets[timers[t].socket].state) != Open ==>
                && sent == []
                && timers == old(timers) - {t}
                && pingIntervals == old(pingIntervals) - {old(timers[t].subject)}
                && connections == old(connections) && sockets == old(sockets)
                && lastConnectionAttempt == old(lastConnectionAttempt) && eventHandlers == old(eventHandlers)
                && reconnects == old(reconnects) && nextSocket == old(nextSocket) && nextTimer == old(nextTimer)
    {
      var timer := timers[t];
      if sockets[timer.socket].state == Open {
        sent := [Ping];
      } else {
        sent := [];
        timers := timers - {t};
        pingIntervals := pingIntervals - {timer.subject};
      }
    }

    /**
     * The oldest pending reconnection fires: `getConnection(id, wsUrl)` at
     * time `now`, with the id and URL the close handler captured, and with
     * every outcome `GetConnection` has.
     */
    method ReconnectTick(now: int, construction: Construction) returns (r: Option<SocketId>, calls: seq<Call>)
      requires Valid() && reconnects != []
      modifies this
      ensures Valid()
      ensures reconnects == old(reconnects[1..])
      ensures pingIntervals == old(pingIntervals) && timers == old(timers) && nextTimer == old(nextTimer)
      ensures var job := old(reconnects[0]);
              Connects(job.subject, job.url, now, construction, old(HandlersOf(job.subject)).error,
                       old(Snapshot()), r, calls, Snapshot())
      ensures eventHandlers == if old(Snapshot()).Classify(old(reconnects[0].subject), now).Create? && construction.Constructed?
                                  && old(reconnects[0].subject) !in old(eventHandlers)
                               then old(eventHandlers)[old(reconnects[0].subject) := NoHandlers] else old(eventHandlers)
    {
      var job := reconnects[0];
      reconnects := reconnects[1..];
      r, calls := GetConnection(job.subject, job.url, now, construction);
    }
  }
}
