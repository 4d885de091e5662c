/**
 * The manager's subscriber bookkeeping: for each subject id, five handler
 * sets (`message`, `status`, `error`, `script_generated`, `job_complete`).
 * A JavaScript `Set` iterates in insertion order and ignores a second `add`
 * of the same element, so a set is modelled as a sequence without repeats.
 */
module Subscribers {
  import opened Wire

  /** The identity of a handler function (JavaScript compares functions by reference). */
  type HandlerId = nat

  datatype Category = MessageEvents | StatusEvents | ErrorEvents | ScriptGeneratedEvents | JobCompleteEvents

  predicate Distinct(hs: seq<HandlerId>) {
    forall i, j :: 0 <= i < j < |hs| ==> hs[i] != hs[j]
  }

  /** `set.add(h)`: appended when absent, otherwise the set is left as it is. */
  function Insert(hs: seq<HandlerId>, h: HandlerId): (r: seq<HandlerId>)
    ensures forall x :: x in r <==> x in hs || x == h
    ensures Distinct(hs) ==> Distinct(r)
    ensures h in hs ==> r == hs
    ensures h !in hs ==> r == hs + [h]
  {
    if h in hs then hs else hs + [h]
  }

  /** `set.delete(h)`: every other element stays, in its order. */
  function Delete(hs: seq<HandlerId>, h: HandlerId): (r: seq<HandlerId>)
    ensures forall x :: x in r <==> x in hs && x != h
    ensures Distinct(hs) ==> Distinct(r)
    ensures |r| <= |hs|
  {
    if hs == [] then []
    else if hs[0] == h then Delete(hs[1..], h)
    else
      var rest := Delete(hs[1..], h);
      assert Distinct(hs) ==> hs[0] !in hs[1..];
      assert Distinct(hs) ==> Distinct([hs[0]] + rest) by {
        if Distinct(hs) {
          assert forall j :: 0 <= j < |rest| ==> ([hs[0]] + rest)[j + 1] == rest[j];
        }
      }
      [hs[0]] + rest
  }

  lemma {:induction false} DeleteAbsent(hs: seq<HandlerId>, h: HandlerId)
    requires h !in hs
    ensures Delete(hs, h) == hs
  {
    if hs != [] {
      DeleteAbsent(hs[1..], h);
      assert [hs[0]] + hs[1..] == hs;
    }
  }

  lemma {:induction false} DeleteAppend(a: seq<HandlerId>, b: seq<HandlerId>, h: HandlerId)
    ensures Delete(a + b, h) == Delete(a, h) + Delete(b, h)
  {
    if a != [] {
      assert (a + b)[1..] == a[1..] + b;
      DeleteAppend(a[1..], b, h);
    } else {
      assert a + b == b;
    }
  }

  /** Removing a handler undoes adding it, when it was not there before. */
  lemma DeleteUndoesInsert(hs: seq<HandlerId>, h: HandlerId)
    requires h !in hs
    ensures Delete(Insert(hs, h), h) == hs
  {
    DeleteAppend(hs, [h], h);
    DeleteAbsent(hs, h);
    assert Delete([h], h) == [];
  }

  /** The five handler sets of one subject id. */
  datatype Buckets = Buckets(
    message: seq<HandlerId>,
    status: seq<HandlerId>,
    error: seq<HandlerId>,
    scriptGenerated: seq<HandlerId>,
    jobComplete: seq<HandlerId>)
  {
    /** `handlers[event]` */
    function Of(c: Category): seq<HandlerId> {
      match c
      case MessageEvents => message
      case StatusEvents => status
      case ErrorEvents => error
      case ScriptGeneratedEvents => scriptGenerated
      case JobCompleteEvents => jobComplete
    }

    function With(c: Category, hs: seq<HandlerId>): (r: Buckets)
      ensures r.Of(c) == hs
      ensures forall d :: d != c ==> r.Of(d) == Of(d)
    {
      match c
      case MessageEvents => this.(message := hs)
      case StatusEvents => this.(status := hs)
      case ErrorEvents => this.(error := hs)
      case ScriptGeneratedEvents => this.(scriptGenerated := hs)
      case JobCompleteEvents => this.(jobComplete := hs)
    }

    predicate Valid() {
      Distinct(message) && Distinct(status) && Distinct(error)
      && Distinct(scriptGenerated) && Distinct(jobComplete)
    }
  }

  /** Two values with the same five sets are equal. */
  lemma BucketsExtensional(a: Buckets, b: Buckets)
    requires forall c :: a.Of(c) == b.Of(c)
    ensures a == b
  {
    assert a.Of(MessageEvents) == b.Of(MessageEvents) && a.Of(StatusEvents) == b.Of(StatusEvents);
    assert a.Of(ErrorEvents) == b.Of(ErrorEvents) && a.Of(ScriptGeneratedEvents) == b.Of(ScriptGeneratedEvents);
    assert a.Of(JobCompleteEvents) == b.Of(JobCompleteEvents);
  }

  /** The five empty sets created on first use of a subject id. */
  const NoHandlers := Buckets([], [], [], [], [])

  /** `handlers[c].add(h)` */
  function Add(b: Buckets, c: Category, h: HandlerId): (r: Buckets)
    ensures r.Of(c) == Insert(b.Of(c), h)
    ensures h in r.Of(c)
    ensures forall x :: x in r.Of(c) <==> x in b.Of(c) || x == h
    ensures forall d :: d != c ==> r.Of(d) == b.Of(d)
    ensures b.Valid() ==> r.Valid()
  {
    var r := b.With(c, Insert(b.Of(c), h));
    assert forall d :: r.Of(d) == b.Of(d) || (d == c && r.Of(d) == Insert(b.Of(c), h));
    r
  }

  /** `handlers[c].delete(h)` */
  function Remove(b: Buckets, c: Category, h: HandlerId): (r: Buckets)
    ensures r.Of(c) == Delete(b.Of(c), h)
    ensures h !in r.Of(c)
    ensures forall x :: x in r.Of(c) <==> x in b.Of(c) && x != h
    ensures forall d :: d != c ==> r.Of(d) == b.Of(d)
    ensures b.Valid() ==> r.Valid()
  {
    var r := b.With(c, Delete(b.Of(c), h));
    assert forall d :: r.Of(d) == b.Of(d) || (d == c && r.Of(d) == Delete(b.Of(c), h));
    r
  }

  /** Adding the same handler twice leaves one copy: `add` is idempotent. */
  lemma AddIdempotent(b: Buckets, c: Category, h: HandlerId)
    ensures Add(Add(b, c, h), c, h) == Add(b, c, h)
  {
    var once := Add(b, c, h);
    assert once.With(c, once.Of(c)) == once by {
      match c
      case MessageEvents =>
      case StatusEvents =>
      case ErrorEvents =>
      case ScriptGeneratedEvents =>
      case JobCompleteEvents =>
    }
  }

  /** `off` undoes `on` for a handler that was not subscribed before. */
  lemma RemoveUndoesAdd(b: Buckets, c: Category, h: HandlerId)
    requires h !in b.Of(c)
    ensures Remove(Add(b, c, h), c, h) == b
  {
    DeleteUndoesInsert(b.Of(c), h);
    match c
    case MessageEvents =>
    case StatusEvents =>
    case ErrorEvents =>
    case ScriptGeneratedEvents =>
    case JobCompleteEvents =>
  }

  /** The argument a handler receives. */
  datatype Arg =
    | Connected(up: bool)        // status handlers
    | Failure(message: string)   // error handlers: the `Error`'s message
    | ScriptId(id: Value)        // script_generated handlers: `data.script_id`
    | Data(data: Value)          // message and job_complete handlers: the whole frame

  /** One invocation of one subscribed handler. */
  datatype Call = Call(category: Category, handler: HandlerId, arg: Arg)

  /** `handlers[c].forEach(handler => handler(arg))`, as the calls it makes. */
  function FanOut(c: Category, hs: seq<HandlerId>, arg: Arg): (r: seq<Call>)
    ensures |r| == |hs|
    ensures forall i :: 0 <= i < |hs| ==> r[i] == Call(c, hs[i], arg)
  {
    if hs == [] then [] else [Call(c, hs[0], arg)] + FanOut(c, hs[1..], arg)
  }

  /** The number of calls in `calls` made to handler `h` of category `c`. */
  function CallsTo(calls: seq<Call>, c: Category, h: HandlerId): nat {
    if calls == [] then 0
    else (if calls[0].category == c && calls[0].handler == h then 1 else 0) + CallsTo(calls[1..], c, h)
  }

  lemma {:induction false} CallsToAppend(a: seq<Call>, b: seq<Call>, c: Category, h: HandlerId)
    ensures CallsTo(a + b, c, h) == CallsTo(a, c, h) + CallsTo(b, c, h)
  {
    if a == [] {
      assert a + b == b;
    } else {
      assert (a + b)[1..] == a[1..] + b;
      CallsToAppend(a[1..], b, c, h);
    }
  }

  /** Fan-out over a set reaches each member exactly once and nobody else. */
  lemma {:induction false} FanOutOnce(c: Category, hs: seq<HandlerId>, arg: Arg, h: HandlerId)
    requires Distinct(hs)
    ensures CallsTo(FanOut(c, hs, arg), c, h) == if h in hs then 1 else 0
  {
    if hs != [] {
      assert Distinct(hs[1..]);
      FanOutOnce(c, hs[1..], arg, h);
      assert FanOut(c, hs, arg)[1..] == FanOut(c, hs[1..], arg);
      assert h in hs <==> h == hs[0] || h in hs[1..];
    }
  }

  /** A fan-out over category `c` makes no call attributed to any other category. */
  lemma {:induction false} FanOutOtherCategory(c: Category, hs: seq<HandlerId>, arg: Arg, d: Category, h: HandlerId)
    requires d != c
    ensures CallsTo(FanOut(c, hs, arg), d, h) == 0
  {
    if hs != [] {
      FanOutOtherCategory(c, hs[1..], arg, d, h);
      assert FanOut(c, hs, arg)[1..] == FanOut(c, hs[1..], arg);
    }
  }

  /** The `forEach` loop: calls every handler of the set, in insertion order. */
  method Notify(c: Category, hs: seq<HandlerId>, arg: Arg) returns (calls: seq<Call>)
    ensures calls == FanOut(c, hs, arg)
  {
    calls := [];
    var i := 0;
    while i < |hs|
      invariant 0 <= i <= |hs|
      invariant |calls| == i
      invariant forall k :: 0 <= k < i ==> calls[k] == Call(c, hs[k], arg)
    {
      calls := calls + [Call(c, hs[i], arg)];
      i := i + 1;
    }
  }
}
