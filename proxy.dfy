/** The `Proxy` of pkg/proxy/http/proxy.go as an object: its three `sync.Pool`s are
    fields the methods pop from and push to, the pooled objects are updated in
    place, and a ghost log records every effect in order. Each method is proved to
    produce exactly the effects the matching function of module Pipeline gives. */
module HttpProxy {
  import opened ProxyTypes
  import opened Pipeline

  /** A `bytes.Buffer`: the bytes written to it since its last reset. */
  class Buffer {
    var data: Bytes

    constructor ()
      ensures data == []
    {
      data := [];
    }

    method Reset()
      modifies this
      ensures data == []
    {
      data := [];
    }

    method Write(p: Bytes)
      modifies this
      ensures data == old(data) + p
    {
      data := data + p;
    }
  }

  /** A `bufio.Reader`: only the stream it currently reads from matters here. */
  class BufferedReader {
    var source: Option<Stream>

    constructor ()
      ensures source == None
    {
      source := None;
    }

    /** `Reset(r)`: discard what was buffered and read from `r` from now on. */
    method Reset(s: Stream)
      modifies this
      ensures source == Some(s)
    {
      source := Some(s);
    }
  }

  /** A `middleware.Invoker`. What it holds (schema, middleware chain, parsed
      query) is not part of this model; only which pool holds it is. */
  class Invoker {
    constructor ()
    {
    }
  }

  /** The pool after `Get` took its most recently returned object. */
  function Popped<T>(pool: seq<T>): (rest: seq<T>)
    ensures pool != [] ==> pool == rest + [pool[|pool| - 1]]
    ensures pool == [] ==> rest == []
  {
    if pool == [] then [] else pool[..|pool| - 1]
  }

  /** The object `Get` hands out next when the pool is not empty. */
  function Top<T>(pool: seq<T>): set<T>
  {
    if pool == [] then {} else {pool[|pool| - 1]}
  }

  /** A pool after one `Get` and one `Put` of the object that `Get` returned: as
      before when `Get` reused an object, else holding just the new one. */
  ghost predicate Recycled<T>(before: seq<T>, after: seq<T>)
  {
    if before == [] then |after| == 1 else after == before
  }

  class Proxy {
    var bufferPool: seq<Buffer>
    var readerPool: seq<BufferedReader>
    var invokerPool: seq<Invoker>
    /** Every effect of this proxy so far, oldest first. */
    ghost var events: seq<Event>

    /** A proxy with empty pools, as `NewDefaultProxy` leaves them. */
    constructor ()
      ensures bufferPool == [] && readerPool == [] && invokerPool == [] && events == []
    {
      bufferPool := [];
      readerPool := [];
      invokerPool := [];
      events := [];
    }

    // ------------------------------------------------------------ the pools

    /** `BufferPool.Get()`: the most recently returned buffer, or a new empty one. */
    method GetBuffer() returns (b: Buffer)
      modifies this
      ensures old(bufferPool) != [] ==> b == old(bufferPool[|bufferPool| - 1])
      ensures old(bufferPool) == [] ==> fresh(b) && b.data == []
      ensures bufferPool == Popped(old(bufferPool))
      ensures readerPool == old(readerPool) && invokerPool == old(invokerPool)
      ensures events == old(events) + [TakeBuffer]
    {
      if bufferPool == [] {
        b := new Buffer();
      } else {
        b := bufferPool[|bufferPool| - 1];
        bufferPool := bufferPool[..|bufferPool| - 1];
      }
      events := events + [TakeBuffer];
    }

    /** `BufferPool.Put(b)`. */
    method PutBuffer(b: Buffer)
      modifies this
      ensures bufferPool == old(bufferPool) + [b]
      ensures readerPool == old(readerPool) && invokerPool == old(invokerPool)
      ensures events == old(events) + [ReturnBuffer]
    {
      bufferPool := bufferPool + [b];
      events := events + [ReturnBuffer];
    }

    /** `BufferedReaderPool.Get()`: the most recently returned reader, or a new one. */
    method GetReader() returns (br: BufferedReader)
      modifies this
      ensures old(readerPool) != [] ==> br == old(readerPool[|readerPool| - 1])
      ensures old(readerPool) == [] ==> fresh(br)
      ensures readerPool == Popped(old(readerPool))
      ensures bufferPool == old(bufferPool) && invokerPool == old(invokerPool)
      ensures events == old(events) + [TakeReader]
    {
      if readerPool == [] {
        br := new BufferedReader();
      } else {
        br := readerPool[|readerPool| - 1];
        readerPool := readerPool[..|readerPool| - 1];
      }
      events := events + [TakeReader];
    }

    /** `BufferedReaderPool.Put(br)`. */
    method PutReader(br: BufferedReader)
      modifies this
      ensures readerPool == old(readerPool) + [br]
      ensures bufferPool == old(bufferPool) && invokerPool == old(invokerPool)
      ensures events == old(events) + [ReturnReader]
    {
      readerPool := readerPool + [br];
      events := events + [ReturnReader];
    }

    /** `InvokerPool.Get()`: the most recently returned invoker, or a new one. */
    method GetInvoker() returns (invoker: Invoker)
      modifies this
      ensures old(invokerPool) != [] ==> invoker == old(invokerPool[|invokerPool| - 1])
      ensures old(invokerPool) == [] ==> fresh(invoker)
      ensures invokerPool == Popped(old(invokerPool))
      ensures bufferPool == old(bufferPool) && readerPool == old(readerPool)
      ensures events == old(events) + [TakeInvoker]
    {
      if invokerPool == [] {
        invoker := new Invoker();
      } else {
        invoker := invokerPool[|invokerPool| - 1];
        invokerPool := invokerPool[..|invokerPool| - 1];
      }
      events := events + [TakeInvoker];
    }

    /** `InvokerPool.Put(invoker)`. */
    method PutInvoker(invoker: Invoker)
      modifies this
      ensures invokerPool == old(invokerPool) + [invoker]
      ensures bufferPool == old(bufferPool) && readerPool == old(readerPool)
      ensures events == old(events) + [ReturnInvoker]
    {
      invokerPool := invokerPool + [invoker];
      events := events + [ReturnInvoker];
    }

    // ------------------------------------------------------------- pipeline

    /** Loads the route's schema into a pooled invoker, decodes the client's envelope
        from `body`, runs the middleware chain on its query and lets the invoker
        append the rewritten request to `buff`. It stops at the first failing step
        and returns that step's error; the invoker goes back to its pool whichever
        way it returns. */
    method AcceptRequest(contextValues: map<Bytes, Bytes>, requestURI: Bytes, body: BufferedReader,
                         buff: Buffer, c: Collaborators) returns (err: Option<Error>)
      modifies this, buff
      ensures var run := AcceptTrace(contextValues, requestURI, c);
              && err == run.err
              && events == old(events) + run.events
              && buff.data == old(buff.data) + run.written
      ensures bufferPool == old(bufferPool) && readerPool == old(readerPool)
      ensures Recycled(old(invokerPool), invokerPool)
      ensures old(invokerPool) == [] ==> fresh(invokerPool[0])
    {
      var config := c.config(Some(requestURI));
      events := events + [ResolveConfig(Some(requestURI))];
      var invoker := GetInvoker();
      ghost var taken := events;
      err := RunSteps(invoker, config.schema, contextValues, body, buff, c);
      // deferred: InvokerPool.Put(invoker)
      PutInvoker(invoker);
      assert taken == old(events) + [ResolveConfig(Some(requestURI)), TakeInvoker];
    }

    /** The body of AcceptRequest between taking the invoker and its deferred return:
        each step runs only when the one before it succeeded. */
    method RunSteps(invoker: Invoker, schema: Bytes, contextValues: map<Bytes, Bytes>, body: BufferedReader,
                    buff: Buffer, c: Collaborators) returns (err: Option<Error>)
      modifies this, buff
      ensures var run := InvokerSteps(contextValues, schema, c);
              && err == run.err
              && events == old(events) + run.events
              && buff.data == old(buff.data) + run.written
      ensures bufferPool == old(bufferPool) && readerPool == old(readerPool) && invokerPool == old(invokerPool)
    {
      events := events + [SetSchema(schema)];
      err := c.setSchema;
      if err.Some? {
        return;
      }

      events := events + [DecodeBody];
      if c.decoded.Failure? {
        return Some(c.decoded.error);
      }
      var query := c.decoded.value.query;

      events := events + [InvokeMiddleWares(contextValues, query)];
      err := c.invoke;
      if err.Some? {
        return;
      }

      events := events + [RewriteRequest];
      buff.Write(c.rewritten);
      err := c.rewrite;
    }

    /** Sends the buffered request to the backend of the nil route key, wrapped as
        the query of an envelope whose operation name is empty, and returns the
        backend's response body. */
    method DispatchRequest(buff: Buffer, c: Collaborators) returns (response: Result<Bytes>)
      modifies this
      ensures var run := DispatchTrace(buff.data, c);
              response == run.response && events == old(events) + run.events
      ensures bufferPool == old(bufferPool) && readerPool == old(readerPool) && invokerPool == old(invokerPool)
    {
      var req := GraphqlJsonRequest([], buff.data);
      events := events + [EncodeEnvelope(req)];
      if c.encode.Some? {
        return Failure(c.encode.value);
      }
      var config := c.config(None);
      events := events + [ResolveConfig(None)];
      events := events + [Post(config.backendURL, JsonContentType, req)];
      response := c.post;
    }

    /** Serves one request: takes a buffer and a reader from their pools, accepts
        the request, dispatches it and relays the backend's body to the client,
        then gives back what it took and closes the bodies. When AcceptRequest
        fails the reader is not given back. */
    method ServeHTTP(r: Request, c: Collaborators)
      modifies this, Top(bufferPool), Top(readerPool)
      ensures events == old(events) + ServeTrace(r, c).events
      ensures Recycled(old(bufferPool), bufferPool)
      ensures old(bufferPool) == [] ==> fresh(bufferPool[0])
      ensures bufferPool[|bufferPool| - 1].data == AcceptTrace(ContextValues(r), r.requestURI, c).written
      ensures Recycled(old(invokerPool), invokerPool)
      ensures old(invokerPool) == [] ==> fresh(invokerPool[0])
      ensures ServeTrace(r, c).exit.AcceptFailed? ==> readerPool == Popped(old(readerPool))
      ensures !ServeTrace(r, c).exit.AcceptFailed? ==>
                && Recycled(old(readerPool), readerPool)
                && (old(readerPool) == [] ==> fresh(readerPool[0]))
                && readerPool[|readerPool| - 1].source ==
                     Some(if ServeTrace(r, c).exit.DispatchFailed? then InboundBody else BackendBody)
    {
      var buff := GetBuffer();
      buff.Reset();
      events := events + [ResetBuffer];

      var userValues := map[UserKey := HeaderGet(r.header, UserKey)];

      var bufferedReader := GetReader();
      bufferedReader.Reset(InboundBody);
      events := events + [AttachReader(InboundBody)];
      assert events == old(events) + Acquire;

      assert userValues == ContextValues(r);
      ghost var accept := AcceptTrace(userValues, r.requestURI, c);
      var err := AcceptRequest(userValues, r.requestURI, bufferedReader, buff, c);
      Respond(accept, err, buff, bufferedReader, c);
      Regroup(old(events), Acquire, accept.events);
      Regroup(old(events), Acquire + accept.events, Finish(accept, c).events);
    }

    /** ServeHTTP once AcceptRequest has returned `err`: report a failure to the
        client, or forward the request. The reader is given back only when
        AcceptRequest succeeded. */
    method Respond(ghost accept: AcceptRun, err: Option<Error>, buff: Buffer, bufferedReader: BufferedReader,
                   c: Collaborators)
      requires err == accept.err && buff.data == accept.written
      modifies this, bufferedReader
      ensures events == old(events) + Finish(accept, c).events
      ensures bufferPool == old(bufferPool) + [buff]
      ensures invokerPool == old(invokerPool)
      ensures Finish(accept, c).exit.AcceptFailed? ==> readerPool == old(readerPool)
      ensures !Finish(accept, c).exit.AcceptFailed? ==> readerPool == old(readerPool) + [bufferedReader]
      ensures bufferedReader.source ==
                if Finish(accept, c).exit.AcceptFailed? || Finish(accept, c).exit.DispatchFailed? then old(bufferedReader.source)
                else Some(BackendBody)
    {
      if err.Some? {
        PutBuffer(buff);
        events := events + [HandleError(err.value)];
        return;
      }
      Forward(accept, buff, bufferedReader, c);
    }

    /** ServeHTTP once AcceptRequest has succeeded: dispatch the buffered request,
        relay the backend's body through the reader, then give back the reader and
        the buffer and close both bodies. A dispatch failure is not reported to
        the client; a relay failure is. */
    method Forward(ghost accept: AcceptRun, buff: Buffer, bufferedReader: BufferedReader, c: Collaborators)
      requires accept.err.None? && buff.data == accept.written
      modifies this, bufferedReader
      ensures events == old(events) + Finish(accept, c).events
      ensures bufferPool == old(bufferPool) + [buff]
      ensures readerPool == old(readerPool) + [bufferedReader]
      ensures invokerPool == old(invokerPool)
      ensures bufferedReader.source ==
                if Finish(accept, c).exit.DispatchFailed? then old(bufferedReader.source) else Some(BackendBody)
    {
      ghost var dispatch := DispatchTrace(accept.written, c);
      var responseBody := DispatchRequest(buff, c);
      ghost var dispatched := events;
      if responseBody.Failure? {
        PutReader(bufferedReader);
        PutBuffer(buff);
        events := events + [Close(InboundBody)];
        assert events == dispatched + ReleaseInbound;
        Regroup(old(events), dispatch.events, ReleaseInbound);
        return;
      }

      bufferedReader.Reset(BackendBody);
      events := events + [AttachReader(BackendBody)];

      var relay := Relay(responseBody.value, c.relay);
      events := events + [WriteResponse(relay.0)];
      if relay.1.Some? {
        PutReader(bufferedReader);
        PutBuffer(buff);
        events := events + [Close(InboundBody)];
        events := events + [Close(BackendBody)];
        ghost var released := events;
        assert released == dispatched + Release(relay.0);
        Regroup(old(events), dispatch.events, Release(relay.0));
        events := events + [HandleError(relay.1.value)];
        return;
      }

      PutReader(bufferedReader);
      PutBuffer(buff);
      events := events + [Close(InboundBody)];
      events := events + [Close(BackendBody)];
      assert events == dispatched + Release(relay.0);
      Regroup(old(events), dispatch.events, Release(relay.0));
    }
  }
}
