/**
 * The connection registry of the embedded HTTP server, as a pure state machine.
 *
 * A connection (a `FileHandle` in the server, the key of `incomingRequests`) is identified
 * by an integer standing for the object's identity, the in-progress `CFHTTPMessage` by the
 * bytes appended to it so far, and the parser's "header complete" test by a predicate
 * `complete` that the caller supplies.
 * Whether `CFHTTPMessageAppendBytes` succeeds is a boolean the caller (the outside
 * world) decides. The effects the server has on the world — closing a handle,
 * invoking the request handler, re-arming a read — are recorded in logs.
 */
module ConnectionRegistry {
  import opened Wrappers

  newtype byte = x: int | 0 <= x < 256

  /** A `FileHandle` object, identified by its object identity (the dictionary key of
    * `incomingRequests`). Each accepted connection comes with a new `FileHandle`, even when
    * the operating system reuses its descriptor; an identity may still recur once the old
    * object is gone, and nothing below assumes otherwise. */
  type Handle = int

  /** The bytes appended so far to a connection's HTTP message. */
  type Message = seq<byte>

  /** `incomingRequests`: each live connection and its message under construction. */
  type Registry = map<Handle, Message>

  /** One invocation of the request handler: the connection and the message it was handed. */
  datatype Request = Request(handle: Handle, message: Message)

  datatype Connections = Connections(
    requests: Registry,
    accepted: seq<Handle>,     // handles delivered by accept notifications, in order
    closed: seq<Handle>,       // `closeFile()` calls, in order
    dispatched: seq<Request>,  // request-handler invocations, in order
    waits: seq<Handle>)        // `waitForDataInBackgroundAndNotify()` calls, in order

  const Empty := Connections(map[], [], [], [], [])

  /** `stopReceiving(for:close:)`: close the handle iff asked to, and forget its entry. */
  function StopReceiving(c: Connections, h: Handle, close: bool): (r: Connections)
    ensures r.requests.Keys == c.requests.Keys - {h}
    ensures forall k :: k in r.requests ==> r.requests[k] == c.requests[k]
    ensures r.closed == if close then c.closed + [h] else c.closed
    ensures r.accepted == c.accepted && r.dispatched == c.dispatched && r.waits == c.waits
  {
    c.(requests := c.requests - {h}, closed := if close then c.closed + [h] else c.closed)
  }

  /** The handle-carrying half of the accept notification: register an empty message and arm a read. */
  function Accept(c: Connections, incoming: Option<Handle>): (r: Connections)
    ensures incoming.None? ==> r == c
    ensures incoming.Some? ==>
      && r.requests.Keys == c.requests.Keys + {incoming.value}
      && r.requests[incoming.value] == []
      && (forall k :: k in c.requests && k != incoming.value ==> r.requests[k] == c.requests[k])
      && r.accepted == c.accepted + [incoming.value]
      && r.waits == c.waits + [incoming.value]
      && r.closed == c.closed && r.dispatched == c.dispatched
  {
    match incoming
    case None => c
    case Some(h) => c.(requests := c.requests[h := []], accepted := c.accepted + [h], waits := c.waits + [h])
  }

  /** True when a data notification makes the handler run: bytes arrived for a registered
    * handle, they were appended, the header is now complete and a handler is set. */
  predicate Dispatches(c: Connections, h: Handle, data: seq<byte>, appendOk: bool,
                       complete: Message -> bool, handler: bool)
  {
    data != [] && h in c.requests && appendOk && complete(c.requests[h] + data) && handler
  }

  /**
   * `receiveIncomingDataNotification`, up to (not including) any call the handler makes
   * to its completion callback: the registry, closes, dispatches and re-armed reads.
   */
  function OnData(c: Connections, h: Handle, data: seq<byte>, appendOk: bool,
                  complete: Message -> bool, handler: bool): (r: Connections)
    ensures r.requests.Keys <= c.requests.Keys
    ensures forall k :: k in c.requests && k != h ==> k in r.requests && r.requests[k] == c.requests[k]
    ensures r.accepted == c.accepted
    ensures r.dispatched == if Dispatches(c, h, data, appendOk, complete, handler)
                            then c.dispatched + [Request(h, c.requests[h] + data)] else c.dispatched
    ensures Dispatches(c, h, data, appendOk, complete, handler) ==> h !in r.requests
    ensures h in r.requests <==> (data != [] && h in c.requests && appendOk && !complete(c.requests[h] + data))
  {
    if data == [] then
      StopReceiving(c, h, false)
    else if h !in c.requests then
      StopReceiving(c, h, true)
    else if !appendOk then
      StopReceiving(c, h, true)
    else if !complete(c.requests[h] + data) then
      c.(requests := c.requests[h := c.requests[h] + data], waits := c.waits + [h])
    else
      var message := c.requests[h] + data;
      StopReceiving(c.(dispatched := if handler then c.dispatched + [Request(h, message)] else c.dispatched), h, false)
  }

  /** The completion callback handed to the request handler: closes the handle and forgets it. */
  function Complete(c: Connections, h: Handle): (r: Connections)
    ensures r.requests.Keys == c.requests.Keys - {h}
    ensures forall k :: k in r.requests ==> r.requests[k] == c.requests[k]
    ensures r.closed == c.closed + [h]
    ensures r.accepted == c.accepted && r.dispatched == c.dispatched && r.waits == c.waits
  {
    StopReceiving(c, h, true)
  }

  /** One notification delivered to the server, or one call of a completion callback. */
  datatype Event =
    | Accepted(incoming: Option<Handle>)
    | DataAvailable(h: Handle, data: seq<byte>, appendOk: bool, handler: bool)
    | CompletionCalled(h: Handle)

  function Step(c: Connections, e: Event, complete: Message -> bool): Connections
  {
    match e
    case Accepted(incoming) => Accept(c, incoming)
    case DataAvailable(h, data, appendOk, handler) => OnData(c, h, data, appendOk, complete, handler)
    case CompletionCalled(h) => Complete(c, h)
  }

  function Run(c: Connections, evs: seq<Event>, complete: Message -> bool): Connections
    decreases |evs|
  {
    if evs == [] then c else Run(Step(c, evs[0], complete), evs[1..], complete)
  }

  /** How often the request handler was invoked for handle `h`. */
  function DispatchCount(log: seq<Request>, h: Handle): nat
    decreases |log|
  {
    if log == [] then 0
    else DispatchCount(log[..|log| - 1], h) + if log[|log| - 1].handle == h then 1 else 0
  }

  /**
   * The invariant behind "at most once per accepted connection": for every handle, its
   * dispatches plus one if it is still registered never exceed the times it was accepted.
   * So each dispatch uses up one accept, and a registered handle still has one to spare.
   */
  ghost predicate DispatchesBounded(c: Connections)
  {
    forall h :: DispatchCount(c.dispatched, h) + (if h in c.requests then 1 else 0) <= multiset(c.accepted)[h]
  }

  /** The data-notification bytes `chunks`, all appended successfully, with a handler set. */
  function Reads(h: Handle, chunks: seq<seq<byte>>): (evs: seq<Event>)
    ensures |evs| == |chunks|
  {
    if chunks == [] then [] else [DataAvailable(h, chunks[0], true, true)] + Reads(h, chunks[1..])
  }

  function Flatten(chunks: seq<seq<byte>>): seq<byte>
  {
    if chunks == [] then [] else chunks[0] + Flatten(chunks[1..])
  }

  // ---------------------------------------------------------------------------------------
  // Lemmas
  // ---------------------------------------------------------------------------------------

  /** The five outcomes of a data notification, in the order of the handler's guards. */
  lemma OnDataCases(c: Connections, h: Handle, data: seq<byte>, appendOk: bool,
                    complete: Message -> bool, handler: bool)
    ensures var r := OnData(c, h, data, appendOk, complete, handler);
      && (data == [] ==>
            r == StopReceiving(c, h, false))
      && (data != [] && (h !in c.requests || !appendOk) ==>
            r == StopReceiving(c, h, true))
      && (data != [] && h in c.requests && appendOk && !complete(c.requests[h] + data) ==>
            r.requests == c.requests[h := c.requests[h] + data] && r.waits == c.waits + [h] &&
            r.closed == c.closed && r.dispatched == c.dispatched)
      && (data != [] && h in c.requests && appendOk && complete(c.requests[h] + data) ==>
            r.requests == c.requests - {h} && r.closed == c.closed && r.waits == c.waits &&
            r.dispatched == c.dispatched + (if handler then [Request(h, c.requests[h] + data)] else []))
  {
  }

  /** The callback and the handler's deferred `stopReceiving(close: false)` may run in either
    * order (synchronously inside the handler, or later): the result is the same, and so
    * a callback that comes after the deferred removal is harmless. */
  lemma CompletionOrderIrrelevant(c: Connections, h: Handle)
    ensures StopReceiving(Complete(c, h), h, false) == Complete(StopReceiving(c, h, false), h)
  {
  }

  /** A completion callback for a handle no longer registered only closes it. */
  lemma LateCompletionHarmless(c: Connections, h: Handle)
    requires h !in c.requests
    ensures Complete(c, h) == c.(closed := c.closed + [h])
  {
  }

  lemma DispatchCountAppend(log: seq<Request>, req: Request, h: Handle)
    ensures DispatchCount(log + [req], h) == DispatchCount(log, h) + if req.handle == h then 1 else 0
  {
    assert (log + [req])[..|log|] == log;
  }

  /** Every event keeps `DispatchesBounded`: an accept adds one to spare, a dispatch spends the
    * one its registered handle had and deregisters it, and nothing else registers a handle. */
  lemma StepKeepsDispatchesBounded(c: Connections, e: Event, complete: Message -> bool)
    requires DispatchesBounded(c)
    ensures DispatchesBounded(Step(c, e, complete))
  {
    var r := Step(c, e, complete);
    forall k ensures DispatchCount(r.dispatched, k) + (if k in r.requests then 1 else 0) <= multiset(r.accepted)[k] {
      assert DispatchCount(c.dispatched, k) + (if k in c.requests then 1 else 0) <= multiset(c.accepted)[k];
      match e
      case Accepted(incoming) =>
      case CompletionCalled(h) =>
      case DataAvailable(h, data, appendOk, handler) =>
        if Dispatches(c, h, data, appendOk, complete, handler) {
          DispatchCountAppend(c.dispatched, Request(h, c.requests[h] + data), k);
        }
    }
  }

  /** A data event, followed by the completion callback when the handler completes before
    * returning, keeps `DispatchesBounded`. */
  lemma DataKeepsDispatchesBounded(c: Connections, h: Handle, data: seq<byte>, appendOk: bool,
                                   complete: Message -> bool, handler: bool, completesInline: bool)
    requires DispatchesBounded(c)
    ensures var r := OnData(c, h, data, appendOk, complete, handler);
      DispatchesBounded(if completesInline && Dispatches(c, h, data, appendOk, complete, handler)
                        then Complete(r, h) else r)
  {
    StepKeepsDispatchesBounded(c, DataAvailable(h, data, appendOk, handler), complete);
    var r := OnData(c, h, data, appendOk, complete, handler);
    StepKeepsDispatchesBounded(r, CompletionCalled(h), complete);
  }

  /** Deregistering connections without accepting or dispatching any keeps `DispatchesBounded`:
    * this is what `stop()` does to the registry. */
  lemma DeregisterKeepsDispatchesBounded(c: Connections, r: Connections)
    requires DispatchesBounded(c)
    requires r.requests.Keys <= c.requests.Keys
    requires r.accepted == c.accepted && r.dispatched == c.dispatched
    ensures DispatchesBounded(r)
  {
  }

  lemma {:induction false} RunKeepsDispatchesBounded(c: Connections, evs: seq<Event>, complete: Message -> bool)
    requires DispatchesBounded(c)
    ensures DispatchesBounded(Run(c, evs, complete))
    decreases |evs|
  {
    if evs != [] {
      StepKeepsDispatchesBounded(c, evs[0], complete);
      RunKeepsDispatchesBounded(Step(c, evs[0], complete), evs[1..], complete);
    }
  }

  /** From a new server, whatever the notifications and callbacks, the request handler runs
    * at most once per accepted connection: no handle is dispatched more often than it was
    * accepted, and a handle still registered has been dispatched fewer times than accepted. */
  lemma DispatchAtMostOnce(evs: seq<Event>, complete: Message -> bool)
    ensures var r := Run(Empty, evs, complete);
      && (forall h :: DispatchCount(r.dispatched, h) <= multiset(r.accepted)[h])
      && (forall h :: h in r.requests ==> DispatchCount(r.dispatched, h) < multiset(r.accepted)[h])
  {
    RunKeepsDispatchesBounded(Empty, evs, complete);
    var r := Run(Empty, evs, complete);
    forall h ensures DispatchCount(r.dispatched, h) <= multiset(r.accepted)[h] {
      assert DispatchCount(r.dispatched, h) + (if h in r.requests then 1 else 0) <= multiset(r.accepted)[h];
    }
  }

  lemma {:induction false} RunConcat(c: Connections, a: seq<Event>, b: seq<Event>, complete: Message -> bool)
    ensures Run(c, a + b, complete) == Run(Run(c, a, complete), b, complete)
    decreases |a|
  {
    if a == [] {
      assert a + b == b;
    } else {
      var c1 := Step(c, a[0], complete);
      assert (a + b)[0] == a[0];
      assert (a + b)[1..] == a[1..] + b;
      assert Run(c, a + b, complete) == Run(c1, a[1..] + b, complete);
      assert Run(c, a, complete) == Run(c1, a[1..], complete);
      RunConcat(c1, a[1..], b, complete);
    }
  }

  /** Reading `chunks` one after another on top of buffer `b`, every read brings bytes and
    * the header is still incomplete after each of them. */
  predicate StaysIncomplete(b: Message, chunks: seq<seq<byte>>, complete: Message -> bool)
    decreases |chunks|
  {
    chunks == [] ||
    (chunks[0] != [] && !complete(b + chunks[0]) && StaysIncomplete(b + chunks[0], chunks[1..], complete))
  }

  /** A connection whose successive reads never complete the header accumulates them all in
    * its registered message, without dispatch or close. */
  lemma {:induction false} IncompleteReadsAccumulate(c: Connections, h: Handle, chunks: seq<seq<byte>>,
                                                     complete: Message -> bool)
    requires h in c.requests
    requires StaysIncomplete(c.requests[h], chunks, complete)
    ensures var r := Run(c, Reads(h, chunks), complete);
      && r.requests == c.requests[h := c.requests[h] + Flatten(chunks)]
      && r.dispatched == c.dispatched && r.closed == c.closed && r.accepted == c.accepted
    decreases |chunks|
  {
    if chunks == [] {
      assert c.requests[h] + Flatten(chunks) == c.requests[h];
      assert c.requests[h := c.requests[h]] == c.requests;
    } else {
      var d, rest := chunks[0], chunks[1..];
      var evs := Reads(h, chunks);
      assert evs[0] == DataAvailable(h, d, true, true) && evs[1..] == Reads(h, rest);
      var c1 := OnData(c, h, d, true, complete, true);
      assert Run(c, evs, complete) == Run(c1, Reads(h, rest), complete);
      assert c1.requests == c.requests[h := c.requests[h] + d];
      IncompleteReadsAccumulate(c1, h, rest, complete);
      assert c.requests[h] + Flatten(chunks) == c1.requests[h] + Flatten(rest);
    }
  }

  /** A peer that sends less than a complete header and then closes (an empty read) is
    * removed from the registry with no dispatch and no close. */
  lemma PeerClosedBeforeHeader(c: Connections, h: Handle, chunks: seq<seq<byte>>, complete: Message -> bool)
    requires h in c.requests
    requires StaysIncomplete(c.requests[h], chunks, complete)
    ensures var r := Run(c, Reads(h, chunks) + [DataAvailable(h, [], true, true)], complete);
      && r.requests == c.requests - {h}
      && r.dispatched == c.dispatched && r.closed == c.closed
  {
    IncompleteReadsAccumulate(c, h, chunks, complete);
    RunConcat(c, Reads(h, chunks), [DataAvailable(h, [], true, true)], complete);
    var m := Run(c, Reads(h, chunks), complete);
    assert m.requests - {h} == c.requests - {h};
  }

  /** A request header that arrives over any number of reads is dispatched exactly once, on
    * the read that completes it, and the connection leaves the registry without being closed
    * (closing is left to the completion callback). */
  lemma {:induction false} HeaderAcrossReadsDispatchedOnce(c: Connections, h: Handle, front: seq<seq<byte>>,
                                                           last: seq<byte>, complete: Message -> bool)
    requires h in c.requests
    requires StaysIncomplete(c.requests[h], front, complete)
    requires last != [] && complete(c.requests[h] + Flatten(front) + last)
    ensures var r := Run(c, Reads(h, front + [last]), complete);
      && r.requests == c.requests - {h}
      && r.dispatched == c.dispatched + [Request(h, c.requests[h] + Flatten(front) + last)]
      && r.closed == c.closed
  {
    IncompleteReadsAccumulate(c, h, front, complete);
    ReadsConcat(h, front, [last]);
    RunConcat(c, Reads(h, front), Reads(h, [last]), complete);
    var m := Run(c, Reads(h, front), complete);
    var single := Reads(h, [last]);
    assert single[0] == DataAvailable(h, last, true, true) && single[1..] == [];
    var r := OnData(m, h, last, true, complete, true);
    assert Run(m, single, complete) == Run(r, [], complete);
    assert m.requests[h] + last == c.requests[h] + Flatten(front) + last;
    assert r.requests == c.requests - {h};
  }

  lemma {:induction false} ReadsConcat(h: Handle, a: seq<seq<byte>>, b: seq<seq<byte>>)
    ensures Reads(h, a + b) == Reads(h, a) + Reads(h, b)
    decreases |a|
  {
    if a == [] {
      assert a + b == b;
    } else {
      assert (a + b)[0] == a[0];
      assert (a + b)[1..] == a[1..] + b;
      ReadsConcat(h, a[1..], b);
    }
  }
}
