/** Values exchanged by the GraphQL reverse proxy of pkg/proxy/http, the outcomes
    of the collaborators it calls, and the log of observable effects of one request. */
module ProxyTypes {

  datatype Option<+T> = None | Some(value: T)

  /** A Go `(value, error)` pair where exactly one side is meaningful. */
  datatype Result<+T> = Success(value: T) | Failure(error: Error)

  /** A Go `error` value. The proxy never inspects errors, it only hands them on,
      so an error is identified by its text. */
  datatype Error = Error(message: string)

  /** Go's `string` and `[]byte` hold the same bytes; the model uses one sequence
      type for both, so `[]byte(s)` and `buff.String()` are the identity. */
  type Bytes = string

  /** The JSON envelope exchanged with the client and with the backend. */
  datatype GraphqlJsonRequest = GraphqlJsonRequest(operationName: Bytes, query: Bytes)

  /** The argument of `GetRequestConfig`: a request URI, or `nil` (None). */
  type RouteKey = Option<Bytes>

  /** What `RequestConfigProvider.GetRequestConfig` returns: the schema to load into
      the invoker and the URL of the backend. */
  datatype RequestConfig = RequestConfig(schema: Bytes, backendURL: Bytes)

  /** The parts of the inbound `*http.Request` the pipeline reads. `header` maps a
      header name to its first value, as `Header.Get` returns it. */
  datatype Request = Request(requestURI: Bytes, header: map<Bytes, Bytes>)

  /** How `bufferedReader.WriteTo(w)` ends: every byte of the backend body copied,
      or an error after at most `count` bytes were written to the response. */
  datatype RelayOutcome = CopyAll | FailAfter(count: nat, error: Error)

  /** The outcomes of every call the pipeline makes into code it does not own,
      for one request. Each is chosen by the environment, not by the proxy. */
  datatype Collaborators = Collaborators(
    config: RouteKey -> RequestConfig,    // RequestConfigProvider.GetRequestConfig
    setSchema: Option<Error>,              // invoker.SetSchema
    decoded: Result<GraphqlJsonRequest>,   // json.NewDecoder(body).Decode
    invoke: Option<Error>,                 // invoker.InvokeMiddleWares
    rewritten: Bytes,                      // what invoker.RewriteRequest writes into the buffer
    rewrite: Option<Error>,                // the error invoker.RewriteRequest returns
    encode: Option<Error>,                 // json.NewEncoder(&out).Encode
    post: Result<Bytes>,                   // Client.Post: the response body, or its error
    relay: RelayOutcome)                   // bufferedReader.WriteTo(w)

  /** The two streams a request opens: the inbound request body and the body of
      the backend's response. */
  datatype Stream = InboundBody | BackendBody

  /** One observable effect of the pipeline, in the order it happens. */
  datatype Event =
    | TakeBuffer | ResetBuffer | ReturnBuffer
    | TakeReader | AttachReader(stream: Stream) | ReturnReader
    | TakeInvoker | ReturnInvoker
    | ResolveConfig(routeKey: RouteKey)
    | SetSchema(schema: Bytes)
    | DecodeBody
    | InvokeMiddleWares(contextValues: map<Bytes, Bytes>, query: Bytes)
    | RewriteRequest
    | EncodeEnvelope(envelope: GraphqlJsonRequest)
    | Post(url: Bytes, contentType: Bytes, payload: GraphqlJsonRequest)
    | WriteResponse(data: Bytes)
    | Close(stream: Stream)
    | HandleError(error: Error)

  /** The concatenation of what `pick` extracts from each event, in order. */
  function Collect<T>(events: seq<Event>, pick: Event -> seq<T>): (r: seq<T>)
  {
    if events == [] then [] else pick(events[0]) + Collect(events[1..], pick)
  }

  lemma {:induction false} CollectAppend<T>(a: seq<Event>, b: seq<Event>, pick: Event -> seq<T>)
    ensures Collect(a + b, pick) == Collect(a, pick) + Collect(b, pick)
  {
    if a == [] {
      assert a + b == b;
    } else {
      assert (a + b)[1..] == a[1..] + b;
      CollectAppend(a[1..], b, pick);
    }
  }

  lemma CollectPair<T>(x: Event, y: Event, pick: Event -> seq<T>)
    ensures Collect([x, y], pick) == pick(x) + pick(y)
  {
    assert [x, y] == [x] + [y];
    CollectAppend([x], [y], pick);
  }

  /** Concatenation of logs is associative. */
  lemma Regroup(a: seq<Event>, b: seq<Event>, c: seq<Event>)
    ensures a + (b + c) == a + b + c
  {
  }

  /** The error passed to `HandleError`, if `e` is such a call. */
  function ReportedError(e: Event): seq<Error>
  {
    if e.HandleError? then [e.error] else []
  }

  /** The bytes `e` writes to the client's response. */
  function WrittenBytes(e: Event): Bytes
  {
    if e.WriteResponse? then e.data else []
  }

  /** The request `e` sends to the backend, if it is one. */
  function PostOf(e: Event): seq<Event>
  {
    if e.Post? then [e] else []
  }

  /** The route key `e` resolves configuration with, if it is a lookup. */
  function RouteKeyOf(e: Event): seq<RouteKey>
  {
    if e.ResolveConfig? then [e.routeKey] else []
  }
}
