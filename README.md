# GraphQL reverse proxy, HTTP front end

This project models the request pipeline of the HTTP GraphQL proxy in
`pkg/proxy/http/proxy.go`. It also proves what that pipeline does to its pools,
its streams, the client's response and the backend request on every exit path.

For each inbound request, `Proxy.ServeHTTP` does the following:

1. It takes a `bytes.Buffer` and a `bufio.Reader` from their `sync.Pool`s and
   attaches the reader to the request body.
2. It builds the middleware context `{"user": <user header>}`.
3. It calls `AcceptRequest`. That call resolves the route's config with the
   request URI and takes a middleware `Invoker` from its pool. It then loads the
   schema, decodes the client's `{operationName, query}` envelope, runs the
   middleware chain and lets the invoker write the rewritten request into the
   buffer. The invoker goes back to its pool through a `defer`.
4. It calls `DispatchRequest`. That call wraps the buffer as the query of a new
   envelope, encodes it, resolves config with a nil route key and posts the
   envelope to that backend.
5. It copies the backend body to the client through the same reader.
6. It returns the buffer and the reader to their pools and closes both bodies.

The model has three modules:

- **ProxyTypes** holds the values of the pipeline:
  - the `GraphqlJsonRequest` envelope, configs and requests;
  - `Collaborators`, which are the outcomes of every call into code the proxy
    does not own (config provider, invoker, JSON codec, HTTP client, relay);
  - `Event`, one observable effect.
- **Pipeline** gives, as pure functions, the exact sequence of effects each
  operation produces: `AcceptTrace`, `DispatchTrace`, `ServeTrace` and `Finish`.
  It proves what those sequences guarantee, each through a projection `Collect`
  that keeps only the events one property is about.
- **HttpProxy** is the proxy itself, written imperatively:
  - a `Proxy` class whose pools are sequence fields (pop the most recently put
    object, or allocate a new one);
  - pooled `Buffer` and `BufferedReader` objects that are updated in place;
  - a ghost event log.

  Each method is proved to append exactly the events its Pipeline function
  gives, and to leave the pools in a stated state.

The model keeps these behaviours of the source as they are:

- When `AcceptRequest` fails, the buffer is returned but the buffered reader is
  not, and neither body is closed.
- A dispatch failure is not reported to the client: `HandleError` is not called
  on that path.
- `DispatchRequest` ignores the inbound route. It resolves config with `nil`.
- The outbound envelope always has an empty `operationName`, whatever the
  client sent.

## Model

| member | source | states |
|---|---|---|
| Pipeline.ContextValues | pkg/proxy/http/proxy.go:95-96 | The middleware context has exactly one key, `user`, bound to the first value of the `user` header, or to the empty string when that header is absent. |
| Pipeline.Relay | pkg/proxy/http/proxy.go:120 | The bytes copied to the client are a prefix of the backend body. There is an error exactly when the copy fails. A full copy writes the whole body. A failed copy writes min(count, body length) bytes. |
| Pipeline.AcceptStopsAtFirstFailure | pkg/proxy/http/proxy.go:36-59 | AcceptRequest runs SetSchema, Decode, InvokeMiddleWares and RewriteRequest in that order. It starts a step only when every earlier step succeeded, and it returns the error of the last step it ran. Stopping early means that step failed. |
| Pipeline.AcceptStepsRan | pkg/proxy/http/proxy.go:36-59 | Gives, for each of the four ways AcceptRequest can end, the exact list of steps it ran. |
| Pipeline.AcceptLeavesResponseAlone | pkg/proxy/http/proxy.go:29-60 | AcceptRequest reports no error itself, writes nothing to the response and posts nothing to the backend. |
| Pipeline.AcceptInvokerLifecycle | pkg/proxy/http/proxy.go:33-34 | The invoker is taken once. Its schema is set from the config of the request URI before any other use. It is invoked and rewritten only while the earlier steps succeed. Its deferred return is the last effect, on every path. |
| Pipeline.AcceptWritesBufferOnlyInRewrite | pkg/proxy/http/proxy.go:54-59 | Only RewriteRequest touches the buffer, and only after the three earlier steps succeeded. The buffer then holds exactly what it wrote. AcceptRequest returns nil exactly when all four steps succeed. |
| Pipeline.AcceptReadsBodyAfterSchema | pkg/proxy/http/proxy.go:36-42 | The request body is read by the decoder only after SetSchema succeeded. AcceptRequest neither takes nor returns the reader. |
| Pipeline.AcceptRouteKeyAndInvocation | pkg/proxy/http/proxy.go:31-49 | Config is resolved once, with the request URI. The middleware chain runs at most once, after decoding succeeded, with the given context and the decoded query. |
| Pipeline.ServeExit | pkg/proxy/http/proxy.go:101-134 | ServeHTTP leaves through exactly one of four exits: accept failed, dispatch failed, relay failed, or served. Each exit is characterised by the collaborators' outcomes, in both directions, together with the error it carries. |
| Pipeline.ServeBufferLifecycle | pkg/proxy/http/proxy.go:92-93 | The buffer is taken once and reset before any use. It is written by RewriteRequest and read by the encoder only when those run. It is returned once, as its last use, on every exit path. |
| Pipeline.FinishBufferUse | pkg/proxy/http/proxy.go:101-134 | After AcceptRequest, the buffer is encoded into the envelope only when AcceptRequest succeeded, and is then returned once. |
| Pipeline.ServeReaderLifecycle | pkg/proxy/http/proxy.go:98-133 | The reader is attached to the request body before decoding. Only when dispatch succeeded is it attached to the backend body and the response copied through it. It is returned once, after its last use, on the dispatch-failure, relay-failure and success paths, and never when AcceptRequest fails. |
| Pipeline.FinishReaderUse | pkg/proxy/http/proxy.go:101-133 | After AcceptRequest, the reader is not touched when AcceptRequest failed. It is returned when dispatch fails. Otherwise it is re-attached to the backend body, the relayed bytes are copied through it, and then it is returned. |
| Pipeline.ServeInvokerLifecycle | pkg/proxy/http/proxy.go:33-34 | Across the whole request the invoker is used exactly as AcceptRequest uses it: taken and put back once. |
| Pipeline.FinishInvokerUse | pkg/proxy/http/proxy.go:101-134 | ServeHTTP itself never touches the invoker after AcceptRequest. |
| Pipeline.ServeClosesStreams | pkg/proxy/http/proxy.go:101-134 | No body is closed when AcceptRequest fails. Only the request body is closed when dispatch fails. Otherwise the request body and then the backend body are closed, once each. |
| Pipeline.FinishClosesStreams | pkg/proxy/http/proxy.go:108-134 | The same, stated for the part of ServeHTTP after AcceptRequest. |
| Pipeline.ServeReportsErrors | pkg/proxy/http/proxy.go:101-128 | HandleError runs exactly once, with the failing call's error, when AcceptRequest or the relay fails. It does not run after a dispatch failure or on success. |
| Pipeline.FinishReportedError | pkg/proxy/http/proxy.go:101-128 | The same, stated for the part of ServeHTTP after AcceptRequest, in terms of its exit. |
| Pipeline.ServeRelaysBackendBody | pkg/proxy/http/proxy.go:118-120 | The relay writes nothing to the response unless AcceptRequest and dispatch succeeded. Then it writes a prefix of the backend body, and on success the whole body. What `HandleError` writes is not counted here (see Left out). |
| Pipeline.FinishWrittenBytes | pkg/proxy/http/proxy.go:108-134 | The relay bytes, stated for the part of ServeHTTP after AcceptRequest. What `HandleError` writes is not counted. |
| Pipeline.ServeForwardsRewrittenQuery | pkg/proxy/http/proxy.go:62-75 | At most one request reaches the backend, and only after AcceptRequest and the encoding succeeded. Its envelope has the rewritten bytes as query and an empty operation name. It goes to the backend of the nil route key, with content type `application/json`. |
| Pipeline.FinishPosts | pkg/proxy/http/proxy.go:62-75 | After AcceptRequest, the backend is posted to once exactly when AcceptRequest and the encoding succeeded. |
| Pipeline.ServeRouteKeys | pkg/proxy/http/proxy.go:31 | Config is resolved first with the request URI. It is resolved a second time, with the nil key (line 74), only when the envelope was encoded. |
| Pipeline.FinishRouteKeys | pkg/proxy/http/proxy.go:74 | After AcceptRequest, config is resolved only with the nil key, and only when the envelope was encoded. |
| Pipeline.ServeInvokesMiddlewareWithUser | pkg/proxy/http/proxy.go:95-101 | The middleware chain runs at most once per request, after decoding succeeded. It gets the decoded query and a context that holds only the `user` header. |
| Pipeline.FinishInvokesNothing | pkg/proxy/http/proxy.go:101-134 | Nothing after AcceptRequest runs the middleware chain again. |
| Pipeline.AcceptCollect | pkg/proxy/http/proxy.go:29-60 | Supporting lemma for the Accept* and Serve* rows above; it does not model a span of its own. It spells out, event by event, any projection of AcceptRequest's effects for each way the call can end. |
| Pipeline.DispatchCollect | pkg/proxy/http/proxy.go:62-80 | Supporting lemma for the Finish* rows above; it does not model a span of its own. It spells out, event by event, any projection of DispatchRequest's effects, with and without an encoding error. |
| HttpProxy.Buffer.Reset | pkg/proxy/http/proxy.go:93 | After `Reset` the buffer is empty. |
| HttpProxy.Buffer.Write | pkg/proxy/http/proxy.go:54 | A write appends its bytes to the buffer. |
| HttpProxy.BufferedReader.Reset | pkg/proxy/http/proxy.go:99 | After `Reset(s)` the reader reads from `s`. |
| HttpProxy.Proxy.GetBuffer | pkg/proxy/http/proxy.go:92 | `Get` returns the most recently returned buffer and removes it from the pool, or returns a new empty buffer when the pool is empty. The other pools are unchanged. |
| HttpProxy.Proxy.PutBuffer | pkg/proxy/http/proxy.go:103 | `Put` adds the buffer to its pool and changes nothing else. |
| HttpProxy.Proxy.GetReader | pkg/proxy/http/proxy.go:98 | Like GetBuffer, for the reader pool. |
| HttpProxy.Proxy.PutReader | pkg/proxy/http/proxy.go:110 | Like PutBuffer, for the reader pool. |
| HttpProxy.Proxy.GetInvoker | pkg/proxy/http/proxy.go:33 | Like GetBuffer, for the invoker pool. |
| HttpProxy.Proxy.PutInvoker | pkg/proxy/http/proxy.go:34 | Like PutBuffer, for the invoker pool. |
| HttpProxy.Proxy.AcceptRequest | pkg/proxy/http/proxy.go:29-60 | Returns the error, produces the effects and appends to the buffer exactly what AcceptTrace gives. It leaves the buffer and reader pools as they were. It returns the invoker it took, so the invoker pool ends as it started, or holds the one new invoker. |
| HttpProxy.Proxy.RunSteps | pkg/proxy/http/proxy.go:36-59 | The four fallible steps, each guarded by the success of the one before, with their effects, their error and their write to the buffer as InvokerSteps gives them. No pool changes. |
| HttpProxy.Proxy.DispatchRequest | pkg/proxy/http/proxy.go:62-80 | Returns the backend response or the error, and produces the effects, exactly as DispatchTrace gives them for the buffer's contents. No pool changes. |
| HttpProxy.Proxy.ServeHTTP | pkg/proxy/http/proxy.go:90-134 | Produces exactly the effects of ServeTrace. The buffer and invoker pools end as they started, or hold the one new object. The buffer returned last holds the rewritten request. When AcceptRequest fails, the reader pool has lost the reader that was taken. Otherwise the reader pool ends as it started, and its last reader reads from the request body after a dispatch failure and from the backend body otherwise. |
| HttpProxy.Proxy.Respond | pkg/proxy/http/proxy.go:101-106 | After AcceptRequest: on failure, returns only the buffer and reports the error. Otherwise it forwards. Its effects are exactly those of Finish. |
| HttpProxy.Proxy.Forward | pkg/proxy/http/proxy.go:108-133 | Dispatches, relays the backend body through the reader, returns the reader and the buffer, and closes the bodies. A dispatch failure is silent; a relay failure is reported. Its effects are exactly those of Finish. |

## Left out

- JSON encoding and decoding are left out. The decoded envelope and any encoding error are collaborator outcomes, and the query is assumed to be the decoder's `Query` field.
- Pipeline.ServeRelaysBackendBody: counts only the bytes the relay (`WriteTo`, line 120) writes. What `HandleError` writes to the response on the accept-failure and relay-failure paths is not modelled, and neither is the status code; line 104 and lines 147-148 of the default hook write both.
- Pipeline.FinishWrittenBytes: the same restriction, for the part after AcceptRequest.
- `net/http` is left out. The response writer is modelled only by the bytes written to it, and `Client.Post` only by its result.
- Header lookup is reduced to a map from names to first values. Header-name canonicalisation and multiple values are not modelled.
- `sync.Pool` is modelled as a last-in, first-out stack that allocates when empty. A real pool may drop objects at any time and is shared between goroutines. Concurrent requests are not modelled.
- The inside of `middleware.Invoker` is left out: its schema, its middleware chain and the rewritten bytes it produces. Its results are collaborator outcomes. The invoker's schema state is recorded only as a `SetSchema` event.
- The `RequestConfigProvider` is modelled as a function from route key to config. The nil dereference of `*config.Schema` when a config has no schema is not modelled.
- `bufio.Reader` is modelled only by the stream it reads from. The reading is a collaborator outcome: the decode result and the relay outcome.
- `AcceptResponse` and `DispatchResponse` (lines 82-88) are unimplemented stubs that panic, so they are not modelled.
- `NewDefaultProxy` (lines 136-161) is not modelled, beyond the `Proxy` constructor starting with empty pools. Neither is the body of its default `HandleError` (logging, status 500, error text). `HandleError` is modelled as an event carrying the error.
- Go's `string` and `[]byte` are one sequence type here, so conversions between them are the identity.
