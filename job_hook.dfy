/**
 * `useJobWebSocket`: a React hook that subscribes three handlers (status,
 * error, message) to the registry for one job id and tracks the job's
 * progress.  The optional `onStatusChange` and `onJobComplete` callbacks
 * are reported as a sequence of notices.
 */
module JobHook {
  import opened Wrappers
  import opened Wire
  import opened Subscribers
  import opened Registry

  datatype State = State(isConnected: bool, error: Option<string>, status: Option<Value>, audioUrl: Option<Value>,
                         imageUrls: Value, scriptText: Option<Value>, isComplete: bool)

  /** The state before any event: nothing known, no image URLs, not complete. */
  const Initial := State(false, None, None, None, List([]), None, false)

  /** The record handed to `onJobComplete`. */
  datatype Completion = Completion(jobId: Option<Value>, scriptText: Option<Value>, audioUrl: Option<Value>, imageUrls: Value)

  datatype Notice = StatusChanged(status: Option<Value>) | JobCompleted(info: Completion)

  /** Which optional callbacks the caller supplied. */
  datatype Callbacks = Callbacks(onStatusChange: bool, onJobComplete: bool)

  datatype Handlers = Handlers(status: HandlerId, error: HandlerId, message: HandlerId) {
    predicate Distinct() { status != error && status != message && error != message }
  }

  /** The URL the hook connects to: `${wsUrl}?job_id=${jobId}`. */
  function JobUrl(wsUrl: string, jobId: string): string {
    wsUrl + "?job_id=" + jobId
  }

  /** `data.image_urls || []`. */
  function ImageUrls(data: Value): (r: Value)
    ensures Truthy(Field(data, "image_urls")) ==> r == Field(data, "image_urls").value
    ensures !Truthy(Field(data, "image_urls")) ==> r == List([])
  {
    if Truthy(Field(data, "image_urls")) then Field(data, "image_urls").value else List([])
  }

  /** The state after a completion report, with `status` "READY" and `isComplete` set. */
  function Completed(st: State, data: Value): State {
    st.(status := Some(Str("READY")), scriptText := Field(data, "script_text"), audioUrl := Field(data, "audio_url"),
        imageUrls := ImageUrls(data), isComplete := true)
  }

  datatype Step = Step(state: State, notices: seq<Notice>)

  function HandleConnectionStatus(st: State, connected: bool): State {
    st.(isConnected := connected, error := if connected then None else st.error)
  }

  function HandleMessage(st: State, data: Value, cbs: Callbacks): Step {
    if HasType(data, "job_status") then
      Step(st.(status := Field(data, "status")),
           if cbs.onStatusChange then [StatusChanged(Field(data, "status"))] else [])
    else if HasType(data, "job_complete") then
      Step(Completed(st, data),
           if cbs.onJobComplete
           then [JobCompleted(Completion(Field(data, "job_id"), Field(data, "script_text"), Field(data, "audio_url"), ImageUrls(data)))]
           else [])
    else Step(st, [])
  }

  /** One call made by the registry, as it reaches this hook. */
  function Apply(st: State, hs: Handlers, cbs: Callbacks, call: Call): Step {
    match call.arg
    case Connected(up) =>
      if call.handler == hs.status then Step(HandleConnectionStatus(st, up), []) else Step(st, [])
    case Failure(message) =>
      if call.handler == hs.error then Step(st.(error := Some(message)), []) else Step(st, [])
    case ScriptId(_) => Step(st, [])
    case Data(data) =>
      if call.handler == hs.message then HandleMessage(st, data, cbs) else Step(st, [])
  }

  function Run(st: State, hs: Handlers, cbs: Callbacks, calls: seq<Call>): Step
    decreases |calls|
  {
    if calls == [] then Step(st, [])
    else
      var first := Apply(st, hs, cbs, calls[0]);
      var rest := Run(first.state, hs, cbs, calls[1..]);
      Step(rest.state, first.notices + rest.notices)
  }

  function Subscribe(b: Buckets, hs: Handlers): Buckets {
    Add(Add(Add(b, StatusEvents, hs.status), ErrorEvents, hs.error), MessageEvents, hs.message)
  }

  function Unsubscribe(b: Buckets, hs: Handlers): Buckets {
    Remove(Remove(Remove(b, StatusEvents, hs.status), ErrorEvents, hs.error), MessageEvents, hs.message)
  }

  /** The cleanup removes exactly the three pairs the effect added. */
  lemma CleanupUndoesSubscribe(b: Buckets, hs: Handlers)
    requires hs.status !in b.status && hs.error !in b.error && hs.message !in b.message
    ensures Unsubscribe(Subscribe(b, hs), hs) == b
  {
    var r := Unsubscribe(Subscribe(b, hs), hs);
    DeleteUndoesInsert(b.status, hs.status);
    DeleteUndoesInsert(b.error, hs.error);
    DeleteUndoesInsert(b.message, hs.message);
    assert r.status == b.status && r.error == b.error && r.message == b.message;
    assert r.scriptGenerated == b.scriptGenerated && r.jobComplete == b.jobComplete;
  }

  /**
   * One status call copies `connected` and clears the error only when
   * connected; one error call records the message.  Neither reports a notice.
   */
  lemma StatusAndErrorHandlers(st: State, hs: Handlers, cbs: Callbacks, up: bool, message: string)
    requires hs.Distinct()
    ensures Run(st, hs, cbs, [Call(StatusEvents, hs.status, Connected(up))])
            == Step(st.(isConnected := up, error := if up then None else st.error), [])
    ensures Run(st, hs, cbs, [Call(ErrorEvents, hs.error, Failure(message))]) == Step(st.(error := Some(message)), [])
  {
    assert [Call(StatusEvents, hs.status, Connected(up))][1..] == [];
    assert [Call(ErrorEvents, hs.error, Failure(message))][1..] == [];
  }

  /** A frame that is neither `job_status` nor `job_complete` changes nothing and reports nothing. */
  lemma OtherFramesIgnored(st: State, hs: Handlers, cbs: Callbacks, d: Value)
    requires hs.Distinct()
    requires !HasType(d, "job_status") && !HasType(d, "job_complete")
    ensures Run(st, hs, cbs, [Call(MessageEvents, hs.message, Data(d))]) == Step(st, [])
  {
    assert [Call(MessageEvents, hs.message, Data(d))][1..] == [];
  }

  /**
   * The handler of this hook an argument of this kind would reach; the hook
   * has no script_generated handler, and its handlers ignore a script id.
   */
  function Own(hs: Handlers, arg: Arg): HandlerId {
    match arg
    case Connected(_) => hs.status
    case Failure(_) => hs.error
    case ScriptId(_) => hs.message
    case Data(_) => hs.message
  }

  /** Calls made one after the other: the second batch sees the state the first left. */
  lemma {:induction false} RunAppend(st: State, hs: Handlers, cbs: Callbacks, a: seq<Call>, b: seq<Call>)
    ensures var ra := Run(st, hs, cbs, a);
            var rb := Run(ra.state, hs, cbs, b);
            Run(st, hs, cbs, a + b) == Step(rb.state, ra.notices + rb.notices)
    decreases |a|
  {
    if a == [] {
      assert a + b == b;
      assert [] + Run(st, hs, cbs, b).notices == Run(st, hs, cbs, b).notices;
    } else {
      assert (a + b)[0] == a[0] && (a + b)[1..] == a[1..] + b;
      var first := Apply(st, hs, cbs, a[0]);
      RunAppend(first.state, hs, cbs, a[1..], b);
      var ra' := Run(first.state, hs, cbs, a[1..]);
      var rb := Run(ra'.state, hs, cbs, b);
      assert first.notices + (ra'.notices + rb.notices) == (first.notices + ra'.notices) + rb.notices;
    }
  }

  /** A fan-out that does not include the hook's own handler for that argument changes nothing. */
  lemma {:induction false} RunForeign(st: State, hs: Handlers, cbs: Callbacks, c: Category, subs: seq<HandlerId>, arg: Arg)
    requires Own(hs, arg) !in subs
    ensures Run(st, hs, cbs, FanOut(c, subs, arg)) == Step(st, [])
    decreases |subs|
  {
    if subs != [] {
      assert FanOut(c, subs, arg)[1..] == FanOut(c, subs[1..], arg);
      RunForeign(st, hs, cbs, c, subs[1..], arg);
    }
  }

  /** A fan-out over a handler set reaches this hook exactly when its own handler is in the set, and then once. */
  lemma {:induction false} RunFanOut(st: State, hs: Handlers, cbs: Callbacks, c: Category, subs: seq<HandlerId>, arg: Arg)
    requires Distinct(subs)
    ensures Run(st, hs, cbs, FanOut(c, subs, arg))
            == if Own(hs, arg) in subs then Apply(st, hs, cbs, Call(c, Own(hs, arg), arg)) else Step(st, [])
    decreases |subs|
  {
    if subs != [] {
      var calls := FanOut(c, subs, arg);
      assert calls[1..] == FanOut(c, subs[1..], arg);
      assert Distinct(subs[1..]);
      if subs[0] == Own(hs, arg) {
        var first := Apply(st, hs, cbs, calls[0]);
        assert subs[0] !in subs[1..];
        RunForeign(first.state, hs, cbs, c, subs[1..], arg);
        assert first.notices + [] == first.notices;
      } else {
        RunFanOut(st, hs, cbs, c, subs[1..], arg);
        assert Own(hs, arg) in subs <==> Own(hs, arg) in subs[1..];
      }
    }
  }

  /** What `onJobComplete` receives for a `job_complete` frame. */
  function CompletionOf(d: Value): Completion {
    Completion(Field(d, "job_id"), Field(d, "script_text"), Field(d, "audio_url"), ImageUrls(d))
  }

  /**
   * A `job_complete` frame, on any valid handler sets: the registry calls
   * the `job_complete` set and then the `message` set, and the hook's
   * message handler completes the job and reports it once for each of
   * those sets that holds it.
   */
  lemma JobCompleteReported(st: State, hs: Handlers, cbs: Callbacks, b: Buckets, d: Value)
    requires b.Valid()
    requires HasType(d, "job_complete")
    ensures var once := if cbs.onJobComplete then [JobCompleted(CompletionOf(d))] else [];
            var out := Run(st, hs, cbs, Dispatch(b, Parsed(d)).calls);
            && out.notices == (if hs.message in b.jobComplete then once else [])
                              + (if hs.message in b.message then once else [])
            && out.state == if hs.message in b.jobComplete || hs.message in b.message then Completed(st, d) else st
  {
    assert !HasType(d, "script_generated") && !HasType(d, "job_status");
    var jc := FanOut(JobCompleteEvents, b.jobComplete, Data(d));
    var msgs := FanOut(MessageEvents, b.message, Data(d));
    assert Dispatch(b, Parsed(d)).calls == jc + msgs;
    RunAppend(st, hs, cbs, jc, msgs);
    RunFanOut(st, hs, cbs, JobCompleteEvents, b.jobComplete, Data(d));
    var ra := Run(st, hs, cbs, jc);
    RunFanOut(ra.state, hs, cbs, MessageEvents, b.message, Data(d));
    assert Completed(Completed(st, d), d) == Completed(st, d);
  }

  /**
   * The hook never subscribes the `job_complete` category, so after its
   * effect, on handler sets where nobody else subscribed its message
   * closure to that category, a `job_complete` frame reaches it once,
   * through its message handler: the job is complete with status "READY",
   * and `onJobComplete` is called once.
   */
  lemma JobCompleteReportedOnce(st: State, hs: Handlers, b: Buckets, d: Value)
    requires b.Valid() && hs.message !in b.jobComplete
    requires HasType(d, "job_complete")
    ensures var out := Run(st, hs, Callbacks(true, true), Dispatch(Subscribe(b, hs), Parsed(d)).calls);
            && out.state == Completed(st, d)
            && out.state.isComplete && out.state.status == Some(Str("READY"))
            && out.notices == [JobCompleted(CompletionOf(d))]
  {
    var sub := Subscribe(b, hs);
    assert sub.Valid() && sub.jobComplete == b.jobComplete && hs.message in sub.message;
    JobCompleteReported(st, hs, Callbacks(true, true), sub, d);
  }

  /**
   * A `job_status` frame, on any valid handler sets: when the hook's message
   * handler is subscribed it sets `status` and calls `onStatusChange` once
   * with it, and the job is not completed; otherwise nothing changes.
   */
  lemma JobStatusReported(st: State, hs: Handlers, b: Buckets, d: Value)
    requires b.Valid()
    requires HasType(d, "job_status")
    ensures var out := Run(st, hs, Callbacks(true, true), Dispatch(b, Parsed(d)).calls);
            out == if hs.message in b.message
                   then Step(st.(status := Field(d, "status")), [StatusChanged(Field(d, "status"))])
                   else Step(st, [])
  {
    assert !HasType(d, "script_generated") && !HasType(d, "job_complete");
    assert Dispatch(b, Parsed(d)).calls == FanOut(MessageEvents, b.message, Data(d));
    RunFanOut(st, hs, Callbacks(true, true), MessageEvents, b.message, Data(d));
  }

  /** The effect's three `on` calls. */
  method SubscribeAll(m: WebSocketManager, id: string, hs: Handlers)
    requires m.Valid()
    modifies m`eventHandlers
    ensures m.Valid()
    ensures m.eventHandlers == old(m.eventHandlers)[id := Subscribe(old(m.HandlersOf(id)), hs)]
  {
    m.On(id, StatusEvents, hs.status);
    m.On(id, ErrorEvents, hs.error);
    m.On(id, MessageEvents, hs.message);
  }

  /**
   * The effect: without a job id nothing happens; otherwise the three
   * handlers are subscribed and a connection to the job URL is requested,
   * with the outcome `Connects` gives for the branch taken; an already OPEN
   * (reused) socket marks the hook connected at once.
   */
  method Setup(m: WebSocketManager, jobId: string, hs: Handlers, wsUrl: string, now: int,
               construction: Construction, st: State)
    returns (socket: Option<SocketId>, calls: seq<Call>, st': State)
    requires m.Valid()
    modifies m
    ensures m.Valid()
    ensures jobId == "" ==> socket == None && calls == [] && st' == st && unchanged(m)
    ensures jobId != "" ==>
              && m.eventHandlers == old(m.eventHandlers)[jobId := Subscribe(old(m.HandlersOf(jobId)), hs)]
              && Connects(jobId, JobUrl(wsUrl, jobId), now, construction, Subscribe(old(m.HandlersOf(jobId)), hs).error,
                          old(m.Snapshot()), socket, calls, m.Snapshot())
              && var before := old(m.Snapshot());
                 st' == if before.Classify(jobId, now).Reuse? && before.sockets[before.connections[jobId]].state == Open
                        then st.(isConnected := true) else st
    ensures m.pingIntervals == old(m.pingIntervals) && m.timers == old(m.timers)
    ensures m.reconnects == old(m.reconnects) && m.nextTimer == old(m.nextTimer)
  {
    if jobId == "" {
      return None, [], st;
    }
    SubscribeAll(m, jobId, hs);
    socket, calls := m.GetConnection(jobId, JobUrl(wsUrl, jobId), now, construction);
    st' := st;
    if socket.Some? && m.StateOf(socket.value) == Open {
      st' := st.(isConnected := true);
    }
  }

  /** The effect's cleanup: the three `off` calls; the connection is left open. */
  method Cleanup(m: WebSocketManager, jobId: string, hs: Handlers)
    requires m.Valid()
    modifies m
    ensures m.Valid()
    ensures m.eventHandlers == if jobId in old(m.eventHandlers)
                               then old(m.eventHandlers)[jobId := Unsubscribe(old(m.eventHandlers[jobId]), hs)]
                               else old(m.eventHandlers)
    ensures m.connections == old(m.connections) && m.sockets == old(m.sockets)
    ensures m.timers == old(m.timers) && m.pingIntervals == old(m.pingIntervals) && m.reconnects == old(m.reconnects)
    ensures m.lastConnectionAttempt == old(m.lastConnectionAttempt) && m.nextSocket == old(m.nextSocket)
    ensures m.nextTimer == old(m.nextTimer)
  {
    m.Off(jobId, StatusEvents, hs.status);
    m.Off(jobId, ErrorEvents, hs.error);
    m.Off(jobId, MessageEvents, hs.message);
  }

  /**
   * `reconnect()`: `null` without a job id; otherwise the current
   * connection is closed and a new one to the job URL is requested.  The old
   * socket is never handed back.
   */
  method Reconnect(m: WebSocketManager, jobId: string, wsUrl: string, now: int, construction: Construction)
    returns (r: Option<SocketId>, calls: seq<Call>)
    requires m.Valid()
    modifies m
    ensures m.Valid()
    ensures jobId == "" ==> r == None && calls == [] && unchanged(m)
    ensures jobId != "" ==>
              && (r.Some? <==> now - old(m.Snapshot()).LastAttempt(jobId) >= COOLDOWN_MS && construction.Constructed?)
              && (r.Some? ==> r.value == old(m.nextSocket) && r.value in m.sockets
                              && m.sockets[r.value] == Socket(jobId, JobUrl(wsUrl, jobId), Connecting)
                              && jobId in m.connections && m.connections[jobId] == r.value)
              && (jobId in old(m.connections) ==>
                    old(m.connections[jobId]) in m.sockets && !Live(m.sockets[old(m.connections[jobId])].state))
  {
    if jobId == "" {
      return None, [];
    }
    m.CloseConnection(jobId);
    assert !m.Snapshot().Classify(jobId, now).Reuse?;
    r, calls := m.GetConnection(jobId, JobUrl(wsUrl, jobId), now, construction);
  }
}
