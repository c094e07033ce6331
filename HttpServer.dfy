/**
 * `HTTPServer`: the lifecycle state machine of the embedded HTTP server and its handlers
 * for accept and data notifications.
 *
 * The socket calls `start(port:)` makes are replaced by their answers (`SocketCalls`), the
 * primary IP address by a parameter, and the request handler by a log of its invocations.
 * The connection registry itself is specified by the functions of `ConnectionRegistry`.
 */
module HttpServer {
  import opened Wrappers
  import opened ConnectionRegistry

  /** A TCP port: Swift's `UInt16`. */
  type Port = p: int | 0 <= p < 0x1_0000

  /** `HTTPServerState`. */
  datatype ServerState = Idle | Starting | Running(port: Port) | Stopping

  /** `HTTPServerError`: what a failing `start(port:)` throws. */
  datatype ServerError =
    | SocketCreationFailed
    | SocketSetOptionFailed
    | SocketSetAddressFailed
    | SocketSetAddressTimeout
    | SocketListenFailed

  /** The three answers of `CFSocketSetAddress`. */
  datatype SetAddressResult = AddressSet | AddressError | AddressTimeout

  /**
   * The answers of the operating system to the calls `start(port:)` makes, in call order:
   * `CFSocketCreate` (the new `CFSocket`, or nothing), the two `setsockopt` calls
   * (`SO_REUSEADDR`, then `SO_NOSIGPIPE`), `CFSocketSetAddress` and `listen`; and `listener`,
   * the `FileHandle` made for the socket's descriptor once `listen` succeeds, a second object.
   */
  datatype SocketCalls = SocketCalls(
    created: Option<Handle>,
    listener: Handle,
    reuseAddress: bool,
    noSigPipe: bool,
    setAddress: SetAddressResult,
    listen: bool)

  /** The error `start(port:)` throws: that of the first call that fails, or none. */
  function StartFailure(calls: SocketCalls): (err: Option<ServerError>)
    ensures err.None? <==>
      calls.created.Some? && calls.reuseAddress && calls.noSigPipe &&
      calls.setAddress.AddressSet? && calls.listen
    ensures err == Some(SocketCreationFailed) <==> calls.created.None?
    ensures err == Some(SocketSetOptionFailed) <==>
      calls.created.Some? && !(calls.reuseAddress && calls.noSigPipe)
    ensures err == Some(SocketSetAddressFailed) <==>
      calls.created.Some? && calls.reuseAddress && calls.noSigPipe && calls.setAddress.AddressError?
    ensures err == Some(SocketSetAddressTimeout) <==>
      calls.created.Some? && calls.reuseAddress && calls.noSigPipe && calls.setAddress.AddressTimeout?
    ensures err == Some(SocketListenFailed) <==>
      calls.created.Some? && calls.reuseAddress && calls.noSigPipe && calls.setAddress.AddressSet? &&
      !calls.listen
  {
    if calls.created.None? then Some(SocketCreationFailed)
    else if !calls.reuseAddress then Some(SocketSetOptionFailed)
    else if !calls.noSigPipe then Some(SocketSetOptionFailed)
    else if calls.setAddress.AddressError? then Some(SocketSetAddressFailed)
    else if calls.setAddress.AddressTimeout? then Some(SocketSetAddressTimeout)
    else if !calls.listen then Some(SocketListenFailed)
    else None
  }

  /**
   * The states the delegate has been told about, given the current state: the last report
   * is the current state (`idle` before any), `running` is only ever entered from
   * `starting`, and `idle` only from `stopping`.
   */
  ghost predicate LifecycleLog(log: seq<ServerState>, state: ServerState)
  {
    (if log == [] then state == Idle else log[|log| - 1] == state) &&
    forall i :: 0 <= i < |log| ==> EnteredProperly(log, i)
  }

  /** Report `i` of `log` is not `running` unless it follows `starting`, and not `idle`
    * unless it follows `stopping`. */
  ghost predicate EnteredProperly(log: seq<ServerState>, i: nat)
    requires i < |log|
  {
    (log[i].Running? ==> i > 0 && log[i - 1] == Starting) &&
    (log[i] == Idle ==> i > 0 && log[i - 1] == Stopping)
  }

  /** Reporting `next` keeps the log well formed when `running` comes right after `starting`
    * and `idle` right after `stopping`. */
  lemma LifecycleLogExtend(log: seq<ServerState>, state: ServerState, next: ServerState)
    requires LifecycleLog(log, state)
    requires next.Running? ==> state == Starting
    requires next == Idle ==> state == Stopping
    ensures LifecycleLog(log + [next], next)
  {
    var log' := log + [next];
    forall i | 0 <= i < |log'| ensures EnteredProperly(log', i) {
      if i < |log| {
        assert EnteredProperly(log, i);
        assert log'[i] == log[i];
        if i > 0 { assert log'[i - 1] == log[i - 1]; }
      } else if next.Running? || next == Idle {
        assert log'[i - 1] == log[|log| - 1];
      }
    }
  }

  /** `stop()` reports `stopping` and then `idle`, which keeps the log well formed from any state. */
  lemma LifecycleLogStop(log: seq<ServerState>, state: ServerState)
    requires LifecycleLog(log, state)
    ensures LifecycleLog(log + [Stopping], Stopping)
    ensures LifecycleLog(log + [Stopping] + [Idle], Idle)
  {
    LifecycleLogExtend(log, state, Stopping);
    LifecycleLogExtend(log + [Stopping], Stopping, Idle);
  }

  // ---------------------------------------------------------------------------------------
  // The server URL
  // ---------------------------------------------------------------------------------------

  function DigitChar(d: nat): (c: char)
    requires d < 10
    ensures '0' <= c <= '9'
  {
    ('0' as int + d) as char
  }

  function DigitValue(c: char): nat
  {
    if '0' <= c <= '9' then c as int - '0' as int else 0
  }

  /** The decimal notation of `n`, as string interpolation writes an unsigned integer. */
  function Decimal(n: nat): (s: string)
    ensures |s| > 0
    ensures forall i :: 0 <= i < |s| ==> '0' <= s[i] <= '9'
    ensures n == 0 ==> s == "0"
    ensures n > 0 ==> s[0] != '0'
    decreases n
  {
    if n < 10 then [DigitChar(n)] else Decimal(n / 10) + [DigitChar(n % 10)]
  }

  /** The number a string of decimal digits denotes. */
  function DecimalValue(s: string): nat
    decreases |s|
  {
    if s == [] then 0 else DecimalValue(s[..|s| - 1]) * 10 + DigitValue(s[|s| - 1])
  }

  lemma {:induction false} DecimalRoundTrip(n: nat)
    ensures DecimalValue(Decimal(n)) == n
    decreases n
  {
    var s := Decimal(n);
    if n < 10 {
      assert s[..|s| - 1] == [];
    } else {
      DecimalRoundTrip(n / 10);
      assert s[..|s| - 1] == Decimal(n / 10);
    }
  }

  /** `http://<host>:<port>/`. */
  function URLString(host: string, port: Port): (url: string)
    ensures |url| == |host| + |Decimal(port)| + 9
    ensures url[..7] == "http://" && url[7..7 + |host|] == host
    ensures url[7 + |host|] == ':' && url[8 + |host|..|url| - 1] == Decimal(port) && url[|url| - 1] == '/'
  {
    "http://" + host + ":" + Decimal(port) + "/"
  }

  /** The port can be read back from the URL: the digits between the host's colon and the
    * final slash are the decimal notation of the port. */
  lemma URLCarriesPort(host: string, port: Port)
    ensures var url := URLString(host, port);
      && url[..7] == "http://" && url[7..7 + |host|] == host && url[7 + |host|] == ':'
      && url[|url| - 1] == '/'
      && DecimalValue(url[8 + |host|..|url| - 1]) == port
  {
    var url := URLString(host, port);
    assert url[8 + |host|..|url| - 1] == Decimal(port);
    DecimalRoundTrip(port);
  }

  lemma NonEmptyHasMember(s: set<Handle>)
    requires s != {}
    ensures exists k :: k in s
  {
    if forall k :: k !in s {
      assert false;
    }
  }

  /** One step of the loop of `stop()`: closing `k` moves it from the keys still to do to
    * the closed ones. */
  lemma CloseOneMore(closed: seq<Handle>, closed0: seq<Handle>, all: set<Handle>, keys: set<Handle>, k: Handle)
    requires keys <= all && k in keys
    requires multiset(closed) == multiset(closed0) + multiset(all - keys)
    ensures multiset(closed + [k]) == multiset(closed0) + multiset(all - (keys - {k}))
  {
    var done := all - keys;
    assert all - (keys - {k}) == done + {k};
    assert multiset(done + {k}) == multiset(done) + multiset{k};
  }

  // ---------------------------------------------------------------------------------------
  // The server
  // ---------------------------------------------------------------------------------------

  class HTTPServer {
    /** `state`; every assignment is reported to the delegate (`serverDidChangeState`). */
    var state: ServerState
    ghost var stateChanges: seq<ServerState>

    /** Whether the weakly held `requestHandler` is set. */
    var requestHandlerSet: bool

    /** The listening `FileHandle` and the `CFSocket`, each by its object identity. */
    var listeningHandle: Option<Handle>
    var socket: Option<Handle>

    /** `incomingRequests`. */
    var incomingRequests: Registry

    /** What the server has seen and done: accepted handles, closes, handler invocations,
      * armed reads, and armed accepts (`acceptConnectionInBackgroundAndNotify`). */
    ghost var accepted: seq<Handle>
    ghost var closed: seq<Handle>
    ghost var dispatched: seq<Request>
    ghost var waits: seq<Handle>
    ghost var acceptArms: nat

    ghost function Conns(): Connections
      reads this
    {
      Connections(incomingRequests, accepted, closed, dispatched, waits)
    }

    /** The delegate's log is well formed, and no connection has been handed to the request
      * handler more often than it was accepted (`DispatchesBounded`). */
    ghost predicate Valid()
      reads this
    {
      LifecycleLog(stateChanges, state) && DispatchesBounded(Conns())
    }

    constructor ()
      ensures Valid()
      ensures state == Idle && stateChanges == []
      ensures listeningHandle == None && socket == None && !requestHandlerSet
      ensures Conns() == Empty && acceptArms == 0
    {
      state := Idle;
      stateChanges := [];
      requestHandlerSet := false;
      listeningHandle := None;
      socket := None;
      incomingRequests := map[];
      accepted, closed, dispatched, waits := [], [], [], [];
      acceptArms := 0;
    }

    /** `serverURL`: present only while running, and only if the device has an IPv4 address. */
    function ServerURL(primaryIPAddress: Option<string>): (url: Option<string>)
      reads this
      ensures url.Some? <==> state.Running? && primaryIPAddress.Some?
      ensures url.Some? ==> url.value == URLString(primaryIPAddress.value, state.port)
    {
      if state.Running? && primaryIPAddress.Some? then Some(URLString(primaryIPAddress.value, state.port))
      else None
    }

    /**
     * `start(port:)`. On success the server is running on `port`, having reported `starting`
     * and then `running(port)`. On failure it throws the error of the first failing call and
     * stays at `starting`; the socket is kept once it has been created.
     */
    method Start(port: Port, calls: SocketCalls) returns (err: Option<ServerError>)
      requires Valid()
      modifies this
      ensures Valid()
      ensures err == StartFailure(calls)
      ensures state == if err.None? then Running(port) else Starting
      ensures stateChanges == old(stateChanges) + if err.None? then [Starting, Running(port)] else [Starting]
      ensures socket == if calls.created.Some? then calls.created else old(socket)
      ensures listeningHandle == if err.None? then Some(calls.listener) else old(listeningHandle)
      ensures acceptArms == old(acceptArms) + if err.None? then 1 else 0
      ensures Conns() == old(Conns()) && requestHandlerSet == old(requestHandlerSet)
    {
      LifecycleLogExtend(stateChanges, state, Starting);
      state := Starting;
      stateChanges := stateChanges + [Starting];
      if calls.created.None? {
        return Some(SocketCreationFailed);
      }
      socket := calls.created;
      if !calls.reuseAddress {
        return Some(SocketSetOptionFailed);
      }
      if !calls.noSigPipe {
        return Some(SocketSetOptionFailed);
      }
      match calls.setAddress {
        case AddressSet =>
        case AddressError => return Some(SocketSetAddressFailed);
        case AddressTimeout => return Some(SocketSetAddressTimeout);
      }
      if !calls.listen {
        return Some(SocketListenFailed);
      }
      listeningHandle := Some(calls.listener);
      acceptArms := acceptArms + 1;
      LifecycleLogExtend(stateChanges, state, Running(port));
      state := Running(port);
      stateChanges := stateChanges + [Running(port)];
      err := None;
    }

    /**
     * `stop()`: reports `stopping` then `idle`, closes the listening handle if there is one,
     * closes and forgets every registered connection exactly once, and drops the socket.
     */
    method Stop()
      requires Valid()
      modifies this`state, this`stateChanges, this`closed, this`listeningHandle
      modifies this`incomingRequests, this`socket
      ensures Valid()
      ensures state == Idle && stateChanges == old(stateChanges) + [Stopping, Idle]
      ensures listeningHandle == None && socket == None
      ensures incomingRequests == map[]
      ensures old(closed) <= closed
      ensures multiset(closed) == multiset(old(closed))
                                 + (if old(listeningHandle).Some? then multiset{old(listeningHandle).value} else multiset{})
                                 + multiset(old(incomingRequests).Keys)
      ensures accepted == old(accepted) && dispatched == old(dispatched) && waits == old(waits)
      ensures acceptArms == old(acceptArms)
      ensures requestHandlerSet == old(requestHandlerSet)
    {
      LifecycleLogStop(stateChanges, state);
      state := Stopping;
      stateChanges := stateChanges + [Stopping];
      ghost var c := Conns();
      CloseAll();
      DeregisterKeepsDispatchesBounded(c, Conns());
      socket := None;
      state := Idle;
      stateChanges := stateChanges + [Idle];
    }

    /** The closing part of `stop()`: the listening handle if there is one, then every
      * registered connection. */
    method CloseAll()
      modifies this`closed, this`listeningHandle, this`incomingRequests
      ensures listeningHandle == None
      ensures incomingRequests == map[]
      ensures old(closed) <= closed
      ensures multiset(closed) == multiset(old(closed))
                                 + (if old(listeningHandle).Some? then multiset{old(listeningHandle).value} else multiset{})
                                 + multiset(old(incomingRequests).Keys)
    {
      ghost var listenerClosed := if listeningHandle.Some? then [listeningHandle.value] else [];
      if listeningHandle.Some? {
        closed := closed + [listeningHandle.value];
      }
      assert multiset(closed) == multiset(old(closed)) + multiset(listenerClosed);
      listeningHandle := None;
      StopReceivingAll();
    }

    /** The loop of `stop()`: `stopReceiving(for:close: true)` for every registered handle. */
    method StopReceivingAll()
      modifies this`incomingRequests, this`closed
      ensures incomingRequests == map[]
      ensures old(closed) <= closed
      ensures multiset(closed) == multiset(old(closed)) + multiset(old(incomingRequests).Keys)
    {
      var keys := incomingRequests.Keys;
      while keys != {}
        invariant keys <= old(incomingRequests).Keys && incomingRequests.Keys == keys
        invariant old(closed) <= closed
        invariant multiset(closed) == multiset(old(closed)) + multiset(old(incomingRequests).Keys - keys)
        decreases keys
      {
        NonEmptyHasMember(keys);
        var k :| k in keys;
        CloseOneMore(closed, old(closed), old(incomingRequests).Keys, keys, k);
        StopReceiving(k, true);
        keys := keys - {k};
      }
    }

    /** `stopReceiving(for:close:)`. */
    method StopReceiving(h: Handle, close: bool)
      modifies this`incomingRequests, this`closed
      ensures incomingRequests == old(incomingRequests) - {h}
      ensures closed == if close then old(closed) + [h] else old(closed)
      ensures Conns() == ConnectionRegistry.StopReceiving(old(Conns()), h, close)
    {
      if close {
        closed := closed + [h];
      }
      incomingRequests := incomingRequests - {h};
    }

    /** `receiveIncomingConnectionNotification`: registers the accepted handle, if the
      * notification carries one, and re-arms the listener whenever there is one. */
    method ReceiveIncomingConnection(incoming: Option<Handle>)
      requires Valid()
      modifies this`incomingRequests, this`accepted, this`waits, this`acceptArms
      ensures Valid()
      ensures Conns() == Accept(old(Conns()), incoming)
      ensures acceptArms == old(acceptArms) + if listeningHandle.Some? then 1 else 0
    {
      StepKeepsDispatchesBounded(Conns(), Accepted(incoming), (m: Message) => false);
      if incoming.Some? {
        var incomingFileHandle := incoming.value;
        accepted := accepted + [incomingFileHandle];
        incomingRequests := incomingRequests[incomingFileHandle := []];
        waits := waits + [incomingFileHandle];
      }
      if listeningHandle.Some? {
        acceptArms := acceptArms + 1;
      }
    }

    /**
     * `receiveIncomingDataNotification` for handle `h`, which read `data`. `appendOk` is the
     * answer of `CFHTTPMessageAppendBytes`, `complete` stands for
     * `CFHTTPMessageIsHeaderComplete`, and `completesInline` says whether the request
     * handler calls its completion callback before returning.
     */
    method ReceiveIncomingData(h: Handle, data: seq<byte>, appendOk: bool,
                               complete: Message -> bool, completesInline: bool)
      requires Valid()
      modifies this`incomingRequests, this`closed, this`dispatched, this`waits
      ensures Valid()
      ensures Conns() ==
        var r := OnData(old(Conns()), h, data, appendOk, complete, requestHandlerSet);
        if completesInline && Dispatches(old(Conns()), h, data, appendOk, complete, requestHandlerSet)
        then Complete(r, h) else r
    {
      DataKeepsDispatchesBounded(Conns(), h, data, appendOk, complete, requestHandlerSet, completesInline);
      HandleData(h, data, appendOk, complete, completesInline);
    }

    /** The guard chain of `receiveIncomingDataNotification`, step by step. */
    method HandleData(h: Handle, data: seq<byte>, appendOk: bool,
                      complete: Message -> bool, completesInline: bool)
      modifies this`incomingRequests, this`closed, this`dispatched, this`waits
      ensures Conns() ==
        var r := OnData(old(Conns()), h, data, appendOk, complete, requestHandlerSet);
        if completesInline && Dispatches(old(Conns()), h, data, appendOk, complete, requestHandlerSet)
        then Complete(r, h) else r
    {
      if data == [] {
        StopReceiving(h, false);
        return;
      }
      if h !in incomingRequests {
        StopReceiving(h, true);
        return;
      }
      var incomingRequest := incomingRequests[h];
      if !appendOk {
        StopReceiving(h, true);
        return;
      }
      incomingRequest := incomingRequest + data;
      incomingRequests := incomingRequests[h := incomingRequest];
      if !complete(incomingRequest) {
        waits := waits + [h];
        return;
      }
      if requestHandlerSet {
        dispatched := dispatched + [Request(h, incomingRequest)];
        if completesInline {
          // the completion callback, called before the handler returns
          StopReceiving(h, true);
        }
      }
      // the deferred `stopReceiving(for:close: false)`
      StopReceiving(h, false);
    }

    /** The completion callback handed to the request handler. */
    method CompletionCallback(h: Handle)
      requires Valid()
      modifies this`incomingRequests, this`closed
      ensures Valid()
      ensures Conns() == Complete(old(Conns()), h)
    {
      StepKeepsDispatchesBounded(Conns(), CompletionCalled(h), (m: Message) => false);
      StopReceiving(h, true);
    }
  }
}
