/**
 * `useScriptWebSocket`: a React hook that subscribes four handlers to the
 * registry for one collection id and keeps `scriptId`, `isConnected`,
 * `error` and `status` up to date.  Each handler is a reducer over that
 * state; `onScriptGenerated`, when supplied, is reported as an output.
 */
module ScriptHook {
  import opened Wrappers
  import opened Wire
  import opened Subscribers
  import opened Registry

  datatype State = State(scriptId: Option<Value>, isConnected: bool, error: Option<string>, status: Option<Value>)

  /** The state before any event: all `null`/`false`. */
  const Initial := State(None, false, None, None)

  /** The identities of the four handler closures one run of the effect creates. */
  datatype Handlers = Handlers(status: HandlerId, error: HandlerId, scriptGenerated: HandlerId, message: HandlerId) {
    predicate Distinct() {
      status != error && status != scriptGenerated && status != message
      && error != scriptGenerated && error != message && scriptGenerated != message
    }
  }

  /** The URL the hook connects to: `${wsUrl}?collection_id=${collectionId}`. */
  function CollectionUrl(wsUrl: string, collectionId: string): string {
    wsUrl + "?collection_id=" + collectionId
  }

  function HandleConnectionStatus(st: State, connected: bool): State {
    st.(isConnected := connected,
        status := Some(Str(if connected then "connected" else "disconnected")),
        error := if connected then None else st.error)
  }

  function HandleError(st: State, message: string): State {
    st.(error := Some(message), status := Some(Str("error")))
  }

  /** The new state and the arguments passed to `onScriptGenerated`. */
  datatype Step = Step(state: State, generated: seq<Value>)

  function HandleScriptGenerated(st: State, id: Value, hasCallback: bool): Step {
    Step(st.(scriptId := Some(id), status := Some(Str("script_generated"))),
         if hasCallback then [id] else [])
  }

  function HandleMessage(st: State, data: Value, hasCallback: bool): Step {
    if HasType(data, "script_generated") && Truthy(Field(data, "script_id")) then
      HandleScriptGenerated(st, Field(data, "script_id").value, hasCallback)
    else if HasType(data, "collection_status") then
      Step(st.(status := Field(data, "status")), [])
    else
      Step(st, [])
  }

  /** One call made by the registry, as it reaches this hook (calls to other handlers are ignored). */
  function Apply(st: State, hs: Handlers, hasCallback: bool, call: Call): Step {
    match call.arg
    case Connected(up) =>
      if call.handler == hs.status then Step(HandleConnectionStatus(st, up), []) else Step(st, [])
    case Failure(message) =>
      if call.handler == hs.error then Step(HandleError(st, message), []) else Step(st, [])
    case ScriptId(id) =>
      if call.handler == hs.scriptGenerated then HandleScriptGenerated(st, id, hasCallback) else Step(st, [])
    case Data(data) =>
      if call.handler == hs.message then HandleMessage(st, data, hasCallback) else Step(st, [])
  }

  /** A sequence of calls, applied in order. */
  function Run(st: State, hs: Handlers, hasCallback: bool, calls: seq<Call>): Step
    decreases |calls|
  {
    if calls == [] then Step(st, [])
    else
      var first := Apply(st, hs, hasCallback, calls[0]);
      var rest := Run(first.state, hs, hasCallback, calls[1..]);
      Step(rest.state, first.generated + rest.generated)
  }

  /** The handler sets after the effect's four `on` calls. */
  function Subscribe(b: Buckets, hs: Handlers): Buckets {
    SubscribeContent(SubscribeConnection(b, hs), hs)
  }

  /** The first two `on` calls: the status and error handlers. */
  function SubscribeConnection(b: Buckets, hs: Handlers): Buckets {
    Add(Add(b, StatusEvents, hs.status), ErrorEvents, hs.error)
  }

  /** The last two `on` calls: the script_generated and message handlers. */
  function SubscribeContent(b: Buckets, hs: Handlers): Buckets {
    Add(Add(b, ScriptGeneratedEvents, hs.scriptGenerated), MessageEvents, hs.message)
  }

  /** The handler sets after the cleanup's four `off` calls. */
  function Unsubscribe(b: Buckets, hs: Handlers): Buckets {
    Remove(Remove(Remove(Remove(b, StatusEvents, hs.status), ErrorEvents, hs.error),
                  ScriptGeneratedEvents, hs.scriptGenerated), MessageEvents, hs.message)
  }

  /** On a subject with no handlers yet, each of the four categories holds exactly this hook's handler. */
  lemma SubscribeFresh(hs: Handlers)
    ensures Subscribe(NoHandlers, hs) == Buckets([hs.message], [hs.status], [hs.error], [hs.scriptGenerated], [])
  {
    var b1 := Add(NoHandlers, StatusEvents, hs.status);
    var b2 := Add(b1, ErrorEvents, hs.error);
    var b3 := Add(b2, ScriptGeneratedEvents, hs.scriptGenerated);
    var b4 := Add(b3, MessageEvents, hs.message);
    assert b4.Of(StatusEvents) == b1.Of(StatusEvents) == [hs.status];
    assert b4.Of(ErrorEvents) == b2.Of(ErrorEvents) == [hs.error];
    assert b4.Of(ScriptGeneratedEvents) == b3.Of(ScriptGeneratedEvents) == [hs.scriptGenerated];
    assert b4.Of(MessageEvents) == [hs.message];
    assert b4.Of(JobCompleteEvents) == [];
    BucketsExtensional(b4, Buckets([hs.message], [hs.status], [hs.error], [hs.scriptGenerated], []));
  }

  /** The cleanup removes exactly the four pairs the effect added: the sets are as before. */
  lemma CleanupUndoesSubscribe(b: Buckets, hs: Handlers)
    requires hs.status !in b.status && hs.error !in b.error
    requires hs.scriptGenerated !in b.scriptGenerated && hs.message !in b.message
    ensures Unsubscribe(Subscribe(b, hs), hs) == b
  {
    var s1 := Add(b, StatusEvents, hs.status);
    var s2 := Add(s1, ErrorEvents, hs.error);
    var s3 := Add(s2, ScriptGeneratedEvents, hs.scriptGenerated);
    var s4 := Add(s3, MessageEvents, hs.message);
    var r1 := Remove(s4, StatusEvents, hs.status);
    var r2 := Remove(r1, ErrorEvents, hs.error);
    var r3 := Remove(r2, ScriptGeneratedEvents, hs.scriptGenerated);
    var r4 := Remove(r3, MessageEvents, hs.message);
    DeleteUndoesInsert(b.status, hs.status);
    DeleteUndoesInsert(b.error, hs.error);
    DeleteUndoesInsert(b.scriptGenerated, hs.scriptGenerated);
    DeleteUndoesInsert(b.message, hs.message);
    assert r4.Of(StatusEvents) == b.Of(StatusEvents);
    assert r4.Of(ErrorEvents) == b.Of(ErrorEvents);
    assert r4.Of(ScriptGeneratedEvents) == b.Of(ScriptGeneratedEvents);
    assert r4.Of(MessageEvents) == b.Of(MessageEvents);
    assert r4.Of(JobCompleteEvents) == b.Of(JobCompleteEvents);
    BucketsExtensional(r4, b);
  }

  /**
   * One status call: `true` reports "connected" and clears the error;
   * `false` reports "disconnected" and keeps it.  One error call records the
   * message with status "error".  Neither calls `onScriptGenerated`.
   */
  lemma StatusAndErrorHandlers(st: State, hs: Handlers, hasCallback: bool, up: bool, message: string)
    requires hs.Distinct()
    ensures Run(st, hs, hasCallback, [Call(StatusEvents, hs.status, Connected(up))])
            == Step(st.(isConnected := up, status := Some(Str(if up then "connected" else "disconnected")),
                        error := if up then None else st.error), [])
    ensures Run(st, hs, hasCallback, [Call(ErrorEvents, hs.error, Failure(message))])
            == Step(st.(error := Some(message), status := Some(Str("error"))), [])
  {
    assert [Call(StatusEvents, hs.status, Connected(up))][1..] == [];
    assert [Call(ErrorEvents, hs.error, Failure(message))][1..] == [];
  }

  /** The one handler of this hook that reacts to an argument of this kind. */
  function Own(hs: Handlers, arg: Arg): HandlerId {
    match arg
    case Connected(_) => hs.status
    case Failure(_) => hs.error
    case ScriptId(_) => hs.scriptGenerated
    case Data(_) => hs.message
  }

  /** Calls made one after the other: the second batch sees the state the first left. */
  lemma {:induction false} RunAppend(st: State, hs: Handlers, hasCallback: bool, a: seq<Call>, b: seq<Call>)
    ensures var ra := Run(st, hs, hasCallback, a);
            var rb := Run(ra.state, hs, hasCallback, b);
            Run(st, hs, hasCallback, a + b) == Step(rb.state, ra.generated + rb.generated)
    decreases |a|
  {
    if a == [] {
      assert a + b == b;
      assert [] + Run(st, hs, hasCallback, b).generated == Run(st, hs, hasCallback, b).generated;
    } else {
      assert (a + b)[0] == a[0] && (a + b)[1..] == a[1..] + b;
      var first := Apply(st, hs, hasCallback, a[0]);
      RunAppend(first.state, hs, hasCallback, a[1..], b);
      var ra' := Run(first.state, hs, hasCallback, a[1..]);
      var rb := Run(ra'.state, hs, hasCallback, b);
      assert first.generated + (ra'.generated + rb.generated) == (first.generated + ra'.generated) + rb.generated;
    }
  }

  /** A fan-out that does not include the hook's own handler for that argument changes nothing. */
  lemma {:induction false} RunForeign(st: State, hs: Handlers, hasCallback: bool, c: Category, subs: seq<HandlerId>, arg: Arg)
    requires Own(hs, arg) !in subs
    ensures Run(st, hs, hasCallback, FanOut(c, subs, arg)) == Step(st, [])
    decreases |subs|
  {
    if subs != [] {
      assert FanOut(c, subs, arg)[1..] == FanOut(c, subs[1..], arg);
      RunForeign(st, hs, hasCallback, c, subs[1..], arg);
    }
  }

  /**
   * A fan-out over a handler set reaches this hook exactly when its own
   * handler is in the subs, and then once: other subscribers' handlers are
   * somebody else's closures.
   */
  lemma {:induction false} RunFanOut(st: State, hs: Handlers, hasCallback: bool, c: Category, subs: seq<HandlerId>, arg: Arg)
    requires Distinct(subs)
    ensures Run(st, hs, hasCallback, FanOut(c, subs, arg))
            == if Own(hs, arg) in subs then Apply(st, hs, hasCallback, Call(c, Own(hs, arg), arg)) else Step(st, [])
    decreases |subs|
  {
    if subs != [] {
      var calls := FanOut(c, subs, arg);
      assert calls[1..] == FanOut(c, subs[1..], arg);
      assert Distinct(subs[1..]);
      if subs[0] == Own(hs, arg) {
        var first := Apply(st, hs, hasCallback, calls[0]);
        assert subs[0] !in subs[1..];
        RunForeign(first.state, hs, hasCallback, c, subs[1..], arg);
        assert first.generated + [] == first.generated;
      } else {
        RunFanOut(st, hs, hasCallback, c, subs[1..], arg);
        assert Own(hs, arg) in subs <==> Own(hs, arg) in subs[1..];
      }
    }
  }

  /**
   * The hook subscribes both the `script_generated` and the `message`
   * category, and the registry fires both for one frame: a
   * `script_generated` frame with a `script_id` reports the id once for
   * each of those two sets that holds the hook's handler, whoever else is
   * subscribed, and records it as the script id.
   */
  lemma ScriptGeneratedReported(st: State, hs: Handlers, hasCallback: bool, b: Buckets, d: Value)
    requires b.Valid()
    requires HasType(d, "script_generated") && Truthy(Field(d, "script_id"))
    ensures var id := Field(d, "script_id").value;
            var reached := hs.scriptGenerated in b.scriptGenerated || hs.message in b.message;
            var out := Run(st, hs, hasCallback, Dispatch(b, Parsed(d)).calls);
            && out.generated == (if hasCallback && hs.scriptGenerated in b.scriptGenerated then [id] else [])
                                + (if hasCallback && hs.message in b.message then [id] else [])
            && out.state == if reached then st.(scriptId := Some(id), status := Some(Str("script_generated"))) else st
  {
    var id := Field(d, "script_id").value;
    var sg := FanOut(ScriptGeneratedEvents, b.scriptGenerated, ScriptId(id));
    var msgs := FanOut(MessageEvents, b.message, Data(d));
    assert Dispatch(b, Parsed(d)).calls == sg + msgs;
    RunAppend(st, hs, hasCallback, sg, msgs);
    RunFanOut(st, hs, hasCallback, ScriptGeneratedEvents, b.scriptGenerated, ScriptId(id));
    var ra := Run(st, hs, hasCallback, sg);
    RunFanOut(ra.state, hs, hasCallback, MessageEvents, b.message, Data(d));
    assert HandleMessage(ra.state, d, hasCallback) == HandleScriptGenerated(ra.state, id, hasCallback);
  }

  /**
   * After the effect subscribed the hook on any valid handler sets, one
   * `script_generated` frame with a `script_id` calls `onScriptGenerated`
   * twice with the same id.
   */
  lemma ScriptGeneratedReportedTwice(st: State, hs: Handlers, b: Buckets, d: Value)
    requires b.Valid()
    requires HasType(d, "script_generated") && Truthy(Field(d, "script_id"))
    ensures var out := Run(st, hs, true, Dispatch(Subscribe(b, hs), Parsed(d)).calls);
            && out.generated == [Field(d, "script_id").value, Field(d, "script_id").value]
            && out.state.scriptId == Some(Field(d, "script_id").value)
  {
    var sub := Subscribe(b, hs);
    assert hs.scriptGenerated in sub.scriptGenerated && hs.message in sub.message;
    ScriptGeneratedReported(st, hs, true, sub, d);
  }

  /**
   * A transport error followed by the manager's `status(false)`, on any
   * valid handler sets holding the hook's error and status handlers: the
   * hook ends disconnected with status "disconnected" and the error message
   * kept, because `false` does not clear `error`.
   */
  lemma ErrorThenDisconnect(st: State, hs: Handlers, b: Buckets)
    requires b.Valid() && hs.error in b.error && hs.status in b.status
    ensures Run(st, hs, true, FanOut(ErrorEvents, b.error, Failure(CONNECTION_ERROR))
                              + FanOut(StatusEvents, b.status, Connected(false)))
            == Step(st.(error := Some(CONNECTION_ERROR), isConnected := false, status := Some(Str("disconnected"))), [])
  {
    var errs := FanOut(ErrorEvents, b.error, Failure(CONNECTION_ERROR));
    var downs := FanOut(StatusEvents, b.status, Connected(false));
    RunAppend(st, hs, true, errs, downs);
    RunFanOut(st, hs, true, ErrorEvents, b.error, Failure(CONNECTION_ERROR));
    var ra := Run(st, hs, true, errs);
    RunFanOut(ra.state, hs, true, StatusEvents, b.status, Connected(false));
  }

  /** The same after the effect subscribed the hook, whoever else is subscribed. */
  lemma ErrorSurvivesDisconnect(st: State, hs: Handlers, b: Buckets)
    requires b.Valid()
    ensures var sub := Subscribe(b, hs);
            var out := Run(st, hs, true, FanOut(ErrorEvents, sub.error, Failure(CONNECTION_ERROR))
                                         + FanOut(StatusEvents, sub.status, Connected(false)));
            out == Step(st.(error := Some(CONNECTION_ERROR), isConnected := false, status := Some(Str("disconnected"))), [])
  {
    var sub := Subscribe(b, hs);
    assert sub.Valid() && hs.error in sub.error && hs.status in sub.status;
    ErrorThenDisconnect(st, hs, sub);
  }

  /** A `collection_status` frame sets `status` from the frame; `pong` and other types change nothing. */
  lemma MessageReducer(st: State, d: Value)
    ensures HasType(d, "collection_status") ==> HandleMessage(st, d, true) == Step(st.(status := Field(d, "status")), [])
    ensures !HasType(d, "collection_status") && !HasType(d, "script_generated") ==> HandleMessage(st, d, true) == Step(st, [])
    ensures HasType(d, "script_generated") && !Truthy(Field(d, "script_id")) ==> HandleMessage(st, d, true) == Step(st, [])
  {
    if HasType(d, "collection_status") {
      assert !HasType(d, "script_generated");
    }
  }

  /** The effect's four `on` calls. */
  method SubscribeAll(m: WebSocketManager, id: string, hs: Handlers)
    requires m.Valid()
    modifies m`eventHandlers
    ensures m.Valid()
    ensures m.eventHandlers == old(m.eventHandlers)[id := Subscribe(old(m.HandlersOf(id)), hs)]
  {
    ghost var mid := SubscribeConnection(m.HandlersOf(id), hs);
    SubscribeFirst(m, id, hs);
    assert m.HandlersOf(id) == mid;
    SubscribeRest(m, id, hs);
  }

  /** The first two `on` calls of the effect. */
  method SubscribeFirst(m: WebSocketManager, id: string, hs: Handlers)
    requires m.Valid()
    modifies m`eventHandlers
    ensures m.Valid()
    ensures m.eventHandlers == old(m.eventHandlers)[id := SubscribeConnection(old(m.HandlersOf(id)), hs)]
  {
    m.On(id, StatusEvents, hs.status);
    m.On(id, ErrorEvents, hs.error);
  }

  /** The last two `on` calls of the effect. */
  method SubscribeRest(m: WebSocketManager, id: string, hs: Handlers)
    requires m.Valid()
    modifies m`eventHandlers
    ensures m.Valid()
    ensures m.eventHandlers == old(m.eventHandlers)[id := SubscribeContent(old(m.HandlersOf(id)), hs)]
  {
    m.On(id, ScriptGeneratedEvents, hs.scriptGenerated);
    m.On(id, MessageEvents, hs.message);
  }

  /**
   * The effect: without a collection id nothing happens; otherwise the four
   * handlers are subscribed and a connection to the collection URL is
   * requested, with the outcome `Connects` gives for the branch taken; only
   * a reused socket can already be OPEN, and then the hook shows it as
   * connected at once.
   */
  method Setup(m: WebSocketManager, collectionId: string, hs: Handlers, wsUrl: string, now: int,
               construction: Construction, st: State)
    returns (socket: Option<SocketId>, calls: seq<Call>, st': State)
    requires m.Valid()
    modifies m
    ensures m.Valid()
    ensures collectionId == "" ==> socket == None && calls == [] && st' == st && unchanged(m)
    ensures collectionId != "" ==>
              && m.eventHandlers == old(m.eventHandlers)[collectionId := Subscribe(old(m.HandlersOf(collectionId)), hs)]
              && Connects(collectionId, CollectionUrl(wsUrl, collectionId), now, construction, Subscribe(old(m.HandlersOf(collectionId)), hs).error,
                          old(m.Snapshot()), socket, calls, m.Snapshot())
              && var before := old(m.Snapshot());
                 st' == if before.Classify(collectionId, now).Reuse? && before.sockets[before.connections[collectionId]].state == Open
                        then st.(isConnected := true, status := Some(Str("connected"))) else st
    ensures m.pingIntervals == old(m.pingIntervals) && m.timers == old(m.timers)
    ensures m.reconnects == old(m.reconnects) && m.nextTimer == old(m.nextTimer)
  {
    if collectionId == "" {
      return None, [], st;
    }
    SubscribeAll(m, collectionId, hs);
    socket, calls := m.GetConnection(collectionId, CollectionUrl(wsUrl, collectionId), now, construction);
    st' := st;
    if socket.Some? && m.StateOf(socket.value) == Open {
      st' := st.(isConnected := true, status := Some(Str("connected")));
    }
  }

  /** The effect's cleanup: the four `off` calls; the connection is left open. */
  method Cleanup(m: WebSocketManager, collectionId: string, hs: Handlers)
    requires m.Valid()
    modifies m
    ensures m.Valid()
    ensures m.eventHandlers == if collectionId in old(m.eventHandlers)
                               then old(m.eventHandlers)[collectionId := Unsubscribe(old(m.eventHandlers[collectionId]), hs)]
                               else old(m.eventHandlers)
    ensures m.connections == old(m.connections) && m.sockets == old(m.sockets)
    ensures m.timers == old(m.timers) && m.pingIntervals == old(m.pingIntervals) && m.reconnects == old(m.reconnects)
    ensures m.lastConnectionAttempt == old(m.lastConnectionAttempt) && m.nextSocket == old(m.nextSocket)
    ensures m.nextTimer == old(m.nextTimer)
  {
    m.Off(collectionId, StatusEvents, hs.status);
    m.Off(collectionId, ErrorEvents, hs.error);
    UnsubscribeRest(m, collectionId, hs);
  }

  /** The last two `off` calls of the cleanup. */
  method UnsubscribeRest(m: WebSocketManager, collectionId: string, hs: Handlers)
    requires m.Valid()
    modifies m
    ensures m.Valid()
    ensures m.eventHandlers == if collectionId in old(m.eventHandlers)
                               then old(m.eventHandlers)[collectionId := Remove(Remove(old(m.eventHandlers[collectionId]),
                                                           ScriptGeneratedEvents, hs.scriptGenerated), MessageEvents, hs.message)]
                               else old(m.eventHandlers)
    ensures m.connections == old(m.connections) && m.sockets == old(m.sockets)
    ensures m.timers == old(m.timers) && m.pingIntervals == old(m.pingIntervals) && m.reconnects == old(m.reconnects)
    ensures m.lastConnectionAttempt == old(m.lastConnectionAttempt) && m.nextSocket == old(m.nextSocket)
    ensures m.nextTimer == old(m.nextTimer)
  {
    m.Off(collectionId, ScriptGeneratedEvents, hs.scriptGenerated);
    m.Off(collectionId, MessageEvents, hs.message);
  }

  /**
   * `reconnect()`: `null` without a collection id; otherwise closes the
   * current connection and requests a new one to the collection URL.  The
   * old socket is never handed back: the result is a new socket, or `null`
   * when the cooldown since the last attempt has not passed or construction
   * throws.
   */
  method Reconnect(m: WebSocketManager, collectionId: string, wsUrl: string, now: int, construction: Construction)
    returns (r: Option<SocketId>, calls: seq<Call>)
    requires m.Valid()
    modifies m
    ensures m.Valid()
    ensures collectionId == "" ==> r == None && calls == [] && unchanged(m)
    ensures collectionId != "" ==>
              && (r.Some? <==> now - old(m.Snapshot()).LastAttempt(collectionId) >= COOLDOWN_MS && construction.Constructed?)
              && (r.Some? ==> r.value == old(m.nextSocket) && r.value in m.sockets
                              && m.sockets[r.value] == Socket(collectionId, CollectionUrl(wsUrl, collectionId), Connecting)
                              && collectionId in m.connections && m.connections[collectionId] == r.value)
              && (collectionId in old(m.connections) ==>
                    old(m.connections[collectionId]) in m.sockets
                    && !Live(m.sockets[old(m.connections[collectionId])].state))
  {
    if collectionId == "" {
      return None, [];
    }
    m.CloseConnection(collectionId);
    assert !m.Snapshot().Classify(collectionId, now).Reuse?;
    r, calls := m.GetConnection(collectionId, CollectionUrl(wsUrl, collectionId), now, construction);
  }
}
