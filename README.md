# ApolloDeveloperKit debug server core, in Dafny

This project models two stateful parts of ApolloDeveloperKit's in-process debug server and
proves properties of them.

- **`HTTPServer`**, the embedded HTTP server. It has a lifecycle state (`idle`, `starting`,
  `running(port)`, `stopping`), and every assignment to it is reported to the delegate. It
  also has a registry `incomingRequests` from an accepted connection to the HTTP message
  read from it so far. Four entry points change these: `start(port:)`, `stop()`, the
  accept notification and the data notification. The data handler decides, in order:
  - an empty read deregisters the connection without closing it;
  - an unknown connection, or a failed append, is closed and deregistered;
  - an incomplete header keeps the connection registered and arms the next read;
  - a complete header dispatches the request once and then deregisters the connection.
    The completion callback handed to the request handler closes and deregisters it.
- **`InMemoryOperationStore`**, the bookkeeping of queries and mutations shown by the
  console. Each category is an ordered dictionary kept as two parallel arrays: identifiers
  and values. `add` appends, `setFailure` / `setSuccess` overwrite the state of the *last*
  entry with a matching identifier, and `jsonValue` projects the entries to JSON.

Files:

- `Wrappers.dfy`: `Option`.
- `ConnectionRegistry.dfy`: the registry as a pure state machine. A connection handle is an
  integer standing for the identity of its `FileHandle` object (the dictionary key), and a
  message is a byte sequence. Header completeness is a
  predicate the caller supplies (`complete`). Whether an append succeeds is a boolean
  (`appendOk`). Accepts, closes, handler invocations (with the message handed over) and
  armed reads are recorded in logs. The file
  holds the step functions, a `Run` over any sequence of events, and the trace lemmas.
- `HttpServer.dfy`: the lifecycle (`StartFailure`, the delegate log invariant), the server
  URL, and the class `HTTPServer`. Its methods update the fields in place as the Swift code
  does, and their postconditions tie the new registry and logs to the step functions of
  `ConnectionRegistry`. The class invariant `Valid()` is the delegate log invariant together with
  `DispatchesBounded` of the registry. Every entry point, `stop()` included, keeps it.
- `OperationStore.dfy`: the store values and their derived properties, last-index lookup,
  the JSON view, and the class `InMemoryOperationStore` with the four parallel arrays.

Abstractions:

- The socket calls of `start(port:)` (`CFSocketCreate`, the two `setsockopt` calls,
  `CFSocketSetAddress`, `listen`) are replaced by their answers, given as a `SocketCalls`
  value.
- The primary IP address is a parameter of `ServerURL`.
- The bytes a read returns are a parameter of the data handler.
- Whether the request handler calls its completion callback before it returns is the
  parameter `completesInline`. A later call is the method `CompletionCallback`.
- A failing `start(port:)` leaves the state at `starting`; nothing resets it. A socket
  already created stays in `socket` and is not invalidated.
- The set-address failures are `socketSetAddressFailed` and `socketSetAddressTimeout`, as
  `HTTPServerError` names them.
- A JSON object is a dictionary from key to value without an order, as the Swift
  dictionary literals are; the model looks its fields up by key.

## Model

| member | source | states |
|---|---|---|
| `ConnectionRegistry.StopReceiving` | Sources/Classes/WebServer/HTTPServer.swift:124-130 | exactly key `h` leaves the registry and every other entry keeps its message; `h` is closed iff `close`; nothing is dispatched or armed |
| `ConnectionRegistry.Accept` | Sources/Classes/WebServer/HTTPServer.swift:150-156 | a notification with a handle registers it with an empty message, leaves the other entries alone and arms one read on it; one without a handle changes nothing |
| `ConnectionRegistry.OnData` | Sources/Classes/WebServer/HTTPServer.swift:160-179 | a data event never registers a new handle and never touches another handle's entry; it dispatches (once, handing over `h` and its old message followed by the new bytes) exactly when bytes arrived for a registered handle, the append worked, the header is complete and a handler is set, and then `h` is gone; `h` stays registered iff the header is still incomplete |
| `ConnectionRegistry.OnDataCases` | Sources/Classes/WebServer/HTTPServer.swift:162-178 | the five outcomes in guard order: empty read removes without close; unknown handle or failed append closes and removes; incomplete header stores old buffer ++ data and re-arms without dispatch or close; complete header dispatches old buffer ++ data (if a handler is set) and removes without closing |
| `ConnectionRegistry.CompletionOrderIrrelevant` | Sources/Classes/WebServer/HTTPServer.swift:175-177 | the completion callback and the deferred `stopReceiving(close: false)` give the same state in either order |
| `ConnectionRegistry.LateCompletionHarmless` | Sources/Classes/WebServer/HTTPServer.swift:129 | a completion callback for a handle already removed only closes it; the registry is unchanged |
| `ConnectionRegistry.Complete` | Sources/Classes/WebServer/HTTPServer.swift:176-178 | the completion callback closes `h` and removes exactly its entry; every other entry keeps its message; nothing is accepted, dispatched or armed |
| `ConnectionRegistry.StepKeepsDispatchesBounded` | Sources/Classes/WebServer/HTTPServer.swift:150-179 | every event keeps the invariant "for each handle, its dispatches, plus one while it is registered, never exceed its accepts", with no assumption about handle reuse |
| `ConnectionRegistry.DataKeepsDispatchesBounded` | Sources/Classes/WebServer/HTTPServer.swift:160-179 | a data event, with or without an inline completion, keeps "dispatches bounded by accepts" |
| `ConnectionRegistry.DeregisterKeepsDispatchesBounded` | Sources/Classes/WebServer/HTTPServer.swift:114-116 | removing registry entries without accepting or dispatching, as `stop()` does, keeps "dispatches bounded by accepts" |
| `ConnectionRegistry.RunKeepsDispatchesBounded` | Sources/Classes/WebServer/HTTPServer.swift:150-179 | the same invariant holds after any sequence of accepts, data events and completion calls |
| `ConnectionRegistry.DispatchAtMostOnce` | Sources/Classes/WebServer/HTTPServer.swift:150-178 | from a new server, whatever the events, no handle is handed to the request handler more often than it was accepted, and a registered handle strictly less often: at most one request per accepted connection |
| `ConnectionRegistry.IncompleteReadsAccumulate` | Sources/Classes/WebServer/HTTPServer.swift:169-173 | reads that each bring bytes and leave the header incomplete concatenate, in order, onto the registered message, with no dispatch and no close |
| `ConnectionRegistry.PeerClosedBeforeHeader` | Sources/Classes/WebServer/HTTPServer.swift:162-173 | a peer that sends less than a complete header and then closes is removed from the registry, with no dispatch and no close |
| `ConnectionRegistry.HeaderAcrossReadsDispatchedOnce` | Sources/Classes/WebServer/HTTPServer.swift:169-178 | a header completed by the last of several reads is dispatched exactly once, with the old message followed by all the reads, in order, as its message, and the connection leaves the registry without being closed |
| `HttpServer.StartFailure` | Sources/Classes/WebServer/HTTPServer.swift:70-100 | `start` throws the error of the first failing call, in call order: creation, either socket option, set-address error, set-address timeout, listen; none iff every call succeeds |
| `HttpServer.LifecycleLogExtend` | Sources/Classes/WebServer/HTTPServer.swift:37-39 | reporting a state that enters `running` only from `starting` and `idle` only from `stopping` keeps the delegate's log well formed, its last entry the current state |
| `HttpServer.Decimal` | Sources/Classes/WebServer/HTTPServer.swift:45 | the port's notation is a non-empty string of decimal digits without a leading zero, `"0"` for zero |
| `HttpServer.URLString` | Sources/Classes/WebServer/HTTPServer.swift:45 | the URL is `http://`, then the host, then `:`, then the port's decimal notation, then `/` |
| `HttpServer.DecimalRoundTrip` | Sources/Classes/WebServer/HTTPServer.swift:45 | the decimal notation of a port reads back as the same number |
| `HttpServer.URLCarriesPort` | Sources/Classes/WebServer/HTTPServer.swift:45 | the server URL is `http://`, the host, `:`, the port's digits and `/`, and the digits denote the port |
| `HttpServer.HTTPServer.ServerURL` | Sources/Classes/WebServer/HTTPServer.swift:43-46 | the URL exists iff the server is running and an IP address is known, and it is built from the running port |
| `HttpServer.HTTPServer.constructor` | Sources/Classes/WebServer/HTTPServer.swift:37-50 | a new server is idle with an empty registry, no socket and no listening handle |
| `HttpServer.HTTPServer.Start` | Sources/Classes/WebServer/HTTPServer.swift:68-107 | on success the state is `running(port)` with the given port, reported after `starting`, the listening handle is the new `FileHandle` given as `listener`, and one accept is armed on it; on failure the error of the first failing call is returned and the state stays `starting`; the socket is kept once created; the registry is untouched |
| `HttpServer.HTTPServer.Stop` | Sources/Classes/WebServer/HTTPServer.swift:109-122 | reports `stopping` then `idle`; the registry is empty; listening handle and socket are nil; the listening handle and every registered connection are closed exactly once each; the invariant (well-formed delegate log, dispatches bounded by accepts) is kept |
| `HttpServer.LifecycleLogStop` | Sources/Classes/WebServer/HTTPServer.swift:110-121 | reporting `stopping` and then `idle` keeps the delegate's log well formed from any state |
| `HttpServer.HTTPServer.CloseAll` | Sources/Classes/WebServer/HTTPServer.swift:112-116 | the listening handle, if any, and every registered connection are closed exactly once each; the listening handle is nil and the registry empty |
| `HttpServer.HTTPServer.StopReceivingAll` | Sources/Classes/WebServer/HTTPServer.swift:114-116 | the loop of `stop()` closes every registered handle exactly once and empties the registry |
| `HttpServer.HTTPServer.StopReceiving` | Sources/Classes/WebServer/HTTPServer.swift:124-130 | the registry and close log become `ConnectionRegistry.StopReceiving` of the old ones |
| `HttpServer.HTTPServer.ReceiveIncomingConnection` | Sources/Classes/WebServer/HTTPServer.swift:150-158 | the registry becomes `Accept` of the old one, and the listener is re-armed whenever there is one, with or without a handle in the notification; the invariant is kept |
| `HttpServer.HTTPServer.ReceiveIncomingData` | Sources/Classes/WebServer/HTTPServer.swift:160-179 | the registry and logs become `OnData` of the old ones, followed by the completion callback when the handler completes before returning; the invariant is kept, so no connection is ever handed to the handler more often than it was accepted |
| `HttpServer.HTTPServer.HandleData` | Sources/Classes/WebServer/HTTPServer.swift:161-178 | the guard chain, written as the Swift code's early returns, has exactly the effect of `OnData`, then `Complete` when the handler completes inline |
| `HttpServer.HTTPServer.CompletionCallback` | Sources/Classes/WebServer/HTTPServer.swift:176-178 | closes the handle and removes it from the registry (`Complete`); the invariant is kept |
| `OperationStore.StoreValue.IsLoading` | Sources/Classes/Store/InMemoryOperationStore.swift:108-113 | true iff neither `networkError` nor `graphQLErrors` is set |
| `OperationStore.StoreValue.NetworkError` | Sources/Classes/Store/InMemoryOperationStore.swift:115-120 | non-nil iff the state is `failure`, and then it is that failure's error |
| `OperationStore.StoreValue.GraphQLErrors` | Sources/Classes/Store/InMemoryOperationStore.swift:122-127 | non-nil iff the state is `success`, and then it is that success's errors |
| `OperationStore.NewValue` | Sources/Classes/Store/InMemoryOperationStore.swift:98-106 | a new entry carries the operation's document and variables and is loading: `isLoading` true, both error fields nil |
| `OperationStore.DerivedFieldsExclusive` | Sources/Classes/Store/InMemoryOperationStore.swift:108-127 | exactly one of `isLoading`, `networkError`, `graphQLErrors` is set |
| `OperationStore.LastIndexOf` | Sources/Classes/Store/InMemoryOperationStore.swift:48 | none iff the identifier does not occur; otherwise an index holding it with no later occurrence |
| `OperationStore.SetLastState` | Sources/Classes/Store/InMemoryOperationStore.swift:48-52 | only the entry at the last matching index gets the new state; every other entry is unchanged, the length is kept, and nothing changes when no identifier matches |
| `OperationStore.SetLastStateKeepsEntries` | Sources/Classes/Store/InMemoryOperationStore.swift:45-69 | a state update keeps every entry at its index with its document and variables |
| `OperationStore.LastIndexOfAdded` | Sources/Classes/Store/InMemoryOperationStore.swift:35-48 | right after an identifier is appended, its last occurrence is the new entry |
| `OperationStore.QueryJson` | Sources/Classes/Store/InMemoryOperationStore.swift:78-84 | a query element has exactly the keys `document`, `variables`, `previousVariables`, `networkError`, `graphQLErrors`; `document` is the query text, `variables` is null iff there are none and otherwise the variables, `previousVariables` is null |
| `OperationStore.MutationJson` | Sources/Classes/Store/InMemoryOperationStore.swift:87-92 | a mutation element has exactly the keys `mutation`, `variables`, `loading`, `error`; `mutation` is the query text, `variables` is null iff there are none and otherwise the variables |
| `OperationStore.QueryJsonFields` | Sources/Classes/Store/InMemoryOperationStore.swift:77-85 | a query's `networkError` field is non-null iff it failed and carries that error; `graphQLErrors` is non-null iff it succeeded and lists its errors one by one, in order |
| `OperationStore.MutationJsonFields` | Sources/Classes/Store/InMemoryOperationStore.swift:86-93 | a mutation's `loading` field is true iff it is loading; `error` is non-null iff it failed and then carries that error |
| `OperationStore.Map` | Sources/Classes/Store/InMemoryOperationStore.swift:77-86 | the projection is total and order-preserving: one output per input, element i the image of input i |
| `OperationStore.MapAppend` | Sources/Classes/Store/InMemoryOperationStore.swift:75-95 | appending a value appends its image to the JSON array and keeps the earlier elements |
| `OperationStore.InMemoryOperationStore.constructor` | Sources/Classes/Store/InMemoryOperationStore.swift:27-30 | a new store has four empty arrays |
| `OperationStore.InMemoryOperationStore.Add` | Sources/Classes/Store/InMemoryOperationStore.swift:32-43 | a query appends one identifier and one loading value to the query arrays and leaves the mutation arrays unchanged; symmetrically for a mutation; a subscription changes nothing; the arrays stay parallel and no entry is removed or reordered |
| `OperationStore.InMemoryOperationStore.SetState` | Sources/Classes/Store/InMemoryOperationStore.swift:45-69 | the shared body of `setFailure` / `setSuccess`: only the operation's category changes, as `SetLastState` says, the identifier arrays never change, and a subscription changes nothing |
| `OperationStore.InMemoryOperationStore.SetFailure` | Sources/Classes/Store/InMemoryOperationStore.swift:45-56 | the last matching entry of the operation's category becomes `failure(networkError)`; nothing else changes |
| `OperationStore.InMemoryOperationStore.SetSuccess` | Sources/Classes/Store/InMemoryOperationStore.swift:58-69 | the last matching entry of the operation's category becomes `success(graphQLErrors)`; nothing else changes |
| `OperationStore.InMemoryOperationStore.JsonValue` | Sources/Classes/Store/InMemoryOperationStore.swift:75-95 | an object with exactly the keys `queries` and `mutations`, each an array with one element per stored value, in insertion order, element i projecting value i |

## Left out

- Socket and file-handle I/O (`CFSocketCreate`, `setsockopt`, `CFSocketSetAddress`,
  `listen`, `availableData`, `closeFile`, `CFSocketInvalidate`) is abstracted. Its answers
  are parameters, and its effects are logs or field updates, except as the next line says.
- Stop: the `CFSocketInvalidate` call is not recorded in any log; the model only drops the
  socket (`socket = nil`).
- NotificationCenter observer registration and removal are not modelled. Armed reads and
  armed accepts are still counted.
- `CFHTTPMessage` parsing is not modelled. Header completeness is a caller-supplied
  predicate, and append failure is a boolean.
- `startBackgroundTaskIfNeeded` is not modelled: it uses UIApplication background tasks.
- `primaryIPAddress` is not modelled: it walks the linked `ifaddrs` interface list and calls
  `getnameinfo`. `URL(string:)` is taken to succeed on the string it is given.
- `NetworkInterface.swift` is not part of this model. It is a thin bridge over `ifaddrs`.
- `ApolloDebugServer.swift` is not part of this model: it is routing glue over the
  third-party GCDWebServer, Apollo's transport and cache delegates, and a timer.
- ReceiveIncomingData: the guard that the notification's object is a `FileHandle` is not
  modelled, because the handle is always given.
- The weak references are not modelled: the `[weak self]` capture in the completion
  callback, and the delegate. A set `requestHandler` is the boolean `requestHandlerSet`.
- The JSON encoding of `JSError`, `GraphQLMap` and `ObjectIdentifier` is not modelled.
  Identifiers are integers, and errors and variables are opaque references. `JSError(_:)`
  is taken to always succeed.
- OperationStore.InMemoryOperationStore: the Swift value-type (copy-on-assign) semantics of
  the struct are not modelled. It is a class whose methods update it in place.
