/** The per-request pipeline of pkg/proxy/http/proxy.go as pure functions: for given
    collaborator outcomes, each function gives the exact sequence of effects a call
    produces. The methods of module HttpProxy are proved to produce these sequences;
    the lemmas here state what the sequences guarantee on every exit path. */
module Pipeline {
  import opened ProxyTypes

  const JsonContentType: Bytes := "application/json"
  const UserKey: Bytes := "user"

  /** `Header.Get`: the value of a header, or the empty string when it is absent. */
  function HeaderGet(header: map<Bytes, Bytes>, key: Bytes): Bytes
  {
    if key in header then header[key] else ""
  }

  /** The context values ServeHTTP hands to the middleware chain. */
  function ContextValues(r: Request): (values: map<Bytes, Bytes>)
    ensures values.Keys == {UserKey}
    ensures values[UserKey] == HeaderGet(r.header, UserKey)
  {
    map[UserKey := HeaderGet(r.header, UserKey)]
  }

  // ---------------------------------------------------------------- accept

  /** What AcceptRequest does: the error it returns, its effects, and the bytes it
      appends to the buffer it is given. */
  datatype AcceptRun = AcceptRun(err: Option<Error>, events: seq<Event>, written: Bytes)

  function AcceptTrace(contextValues: map<Bytes, Bytes>, requestURI: Bytes, c: Collaborators): AcceptRun
  {
    var steps := InvokerSteps(contextValues, c.config(Some(requestURI)).schema, c);
    AcceptRun(steps.err, [ResolveConfig(Some(requestURI)), TakeInvoker] + steps.events + [ReturnInvoker], steps.written)
  }

  /** What AcceptRequest does between taking the invoker and the deferred return
      of it: the four steps, up to and including the first that fails. */
  function InvokerSteps(contextValues: map<Bytes, Bytes>, schema: Bytes, c: Collaborators): AcceptRun
  {
    if c.setSchema.Some? then
      AcceptRun(c.setSchema, [SetSchema(schema)], [])
    else if c.decoded.Failure? then
      AcceptRun(Some(c.decoded.error), [SetSchema(schema), DecodeBody], [])
    else
      var invoke := InvokeMiddleWares(contextValues, c.decoded.value.query);
      if c.invoke.Some? then
        AcceptRun(c.invoke, [SetSchema(schema), DecodeBody, invoke], [])
      else
        AcceptRun(c.rewrite, [SetSchema(schema), DecodeBody, invoke, RewriteRequest], c.rewritten)
  }

  /** The fallible steps of AcceptRequest, in the order the source runs them. */
  datatype Step = SetSchemaStep | DecodeStep | InvokeStep | RewriteStep

  const AcceptSteps: seq<Step> := [SetSchemaStep, DecodeStep, InvokeStep, RewriteStep]

  /** The error a step returns when it runs. */
  function StepError(c: Collaborators, s: Step): Option<Error>
  {
    match s
    case SetSchemaStep => c.setSchema
    case DecodeStep => if c.decoded.Failure? then Some(c.decoded.error) else None
    case InvokeStep => c.invoke
    case RewriteStep => c.rewrite
  }

  /** The step `e` records, if it records one. */
  function StepOf(e: Event): seq<Step>
  {
    match e
    case SetSchema(_) => [SetSchemaStep]
    case DecodeBody => [DecodeStep]
    case InvokeMiddleWares(_, _) => [InvokeStep]
    case RewriteRequest => [RewriteStep]
    case _ => []
  }

  // -------------------------------------------------------------- dispatch

  /** The envelope sent to the backend: the buffer as query, Go's zero value as
      operation name. */
  function OutboundEnvelope(buffered: Bytes): GraphqlJsonRequest
  {
    GraphqlJsonRequest([], buffered)
  }

  /** What DispatchRequest does: the backend's response body or an error, and its effects. */
  datatype DispatchRun = DispatchRun(response: Result<Bytes>, events: seq<Event>)

  function DispatchTrace(buffered: Bytes, c: Collaborators): DispatchRun
  {
    var envelope := OutboundEnvelope(buffered);
    if c.encode.Some? then
      DispatchRun(Failure(c.encode.value), [EncodeEnvelope(envelope)])
    else
      DispatchRun(c.post, [EncodeEnvelope(envelope)] +
                          [ResolveConfig(None), Post(c.config(None).backendURL, JsonContentType, envelope)])
  }

  // ----------------------------------------------------------------- relay

  /** `bufferedReader.WriteTo(w)`: the bytes that reach the response, and the error. */
  function Relay(body: Bytes, outcome: RelayOutcome): (out: (Bytes, Option<Error>))
    ensures out.0 <= body
    ensures out.1.None? <==> outcome.CopyAll?
    ensures outcome.CopyAll? ==> out.0 == body
    ensures outcome.FailAfter? ==> |out.0| == (if outcome.count < |body| then outcome.count else |body|)
  {
    match outcome
    case CopyAll => (body, None)
    case FailAfter(n, e) => (body[..if n < |body| then n else |body|], Some(e))
  }

  // ----------------------------------------------------------------- serve

  /** Where ServeHTTP returns from. */
  datatype Exit = AcceptFailed(error: Error) | DispatchFailed(error: Error) | RelayFailed(error: Error) | Served

  datatype ServeRun = ServeRun(exit: Exit, events: seq<Event>)

  /** Taking the buffer and the reader, before AcceptRequest runs. */
  const Acquire: seq<Event> := [TakeBuffer, ResetBuffer] + [TakeReader, AttachReader(InboundBody)]

  function ServeTrace(r: Request, c: Collaborators): ServeRun
  {
    var accept := AcceptTrace(ContextValues(r), r.requestURI, c);
    var finish := Finish(accept, c);
    ServeRun(finish.exit, Acquire + accept.events + finish.events)
  }

  /** What ServeHTTP does once AcceptRequest has returned. */
  function Finish(accept: AcceptRun, c: Collaborators): ServeRun
  {
    if accept.err.Some? then
      ServeRun(AcceptFailed(accept.err.value), [ReturnBuffer, HandleError(accept.err.value)])
    else
      var dispatch := DispatchTrace(accept.written, c);
      if dispatch.response.Failure? then
        ServeRun(DispatchFailed(dispatch.response.error), dispatch.events + ReleaseInbound)
      else
        var relay := Relay(dispatch.response.value, c.relay);
        var released := dispatch.events + Release(relay.0);
        if relay.1.Some? then
          ServeRun(RelayFailed(relay.1.value), released + [HandleError(relay.1.value)])
        else
          ServeRun(Served, released)
  }

  /** The deferred cleanup after a dispatch failure. */
  const ReleaseInbound: seq<Event> := [ReturnReader, ReturnBuffer] + [Close(InboundBody)]

  /** Relaying the backend body, then the deferred cleanup. */
  function Release(written: Bytes): seq<Event>
  {
    [AttachReader(BackendBody), WriteResponse(written)] + [ReturnReader, ReturnBuffer]
    + [Close(InboundBody), Close(BackendBody)]
  }

  // ------------------------------------------- traces, event by event

  /** What any projection of AcceptRequest's effects is, event by event. */
  lemma AcceptCollect<T>(contextValues: map<Bytes, Bytes>, requestURI: Bytes, c: Collaborators, pick: Event -> seq<T>)
    ensures var schema := c.config(Some(requestURI)).schema;
            Collect(AcceptTrace(contextValues, requestURI, c).events, pick) ==
              pick(ResolveConfig(Some(requestURI))) + pick(TakeInvoker) + pick(SetSchema(schema))
              + (if c.setSchema.Some? then []
                 else if c.decoded.Failure? then pick(DecodeBody)
                 else pick(DecodeBody) + pick(InvokeMiddleWares(contextValues, c.decoded.value.query))
                      + (if c.invoke.Some? then [] else pick(RewriteRequest)))
              + pick(ReturnInvoker)
  {
    var schema := c.config(Some(requestURI)).schema;
    var opening := [ResolveConfig(Some(requestURI)), TakeInvoker];
    var steps := InvokerSteps(contextValues, schema, c).events;
    CollectAppend(opening + steps, [ReturnInvoker], pick);
    CollectAppend(opening, steps, pick);
    CollectPair(ResolveConfig(Some(requestURI)), TakeInvoker, pick);
    StepsCollect(contextValues, schema, c, pick);
  }

  /** What any projection of the steps of AcceptRequest is, event by event. */
  lemma StepsCollect<T>(contextValues: map<Bytes, Bytes>, schema: Bytes, c: Collaborators, pick: Event -> seq<T>)
    ensures Collect(InvokerSteps(contextValues, schema, c).events, pick) ==
              pick(SetSchema(schema))
              + (if c.setSchema.Some? then []
                 else if c.decoded.Failure? then pick(DecodeBody)
                 else pick(DecodeBody) + pick(InvokeMiddleWares(contextValues, c.decoded.value.query))
                      + (if c.invoke.Some? then [] else pick(RewriteRequest)))
  {
    if c.setSchema.None? {
      if c.decoded.Failure? {
        CollectPair(SetSchema(schema), DecodeBody, pick);
      } else {
        var invoke := InvokeMiddleWares(contextValues, c.decoded.value.query);
        CollectPair(SetSchema(schema), DecodeBody, pick);
        if c.invoke.Some? {
          assert [SetSchema(schema), DecodeBody, invoke] == [SetSchema(schema), DecodeBody] + [invoke];
          CollectAppend([SetSchema(schema), DecodeBody], [invoke], pick);
        } else {
          assert [SetSchema(schema), DecodeBody, invoke, RewriteRequest] ==
                 [SetSchema(schema), DecodeBody] + [invoke, RewriteRequest];
          CollectAppend([SetSchema(schema), DecodeBody], [invoke, RewriteRequest], pick);
          CollectPair(invoke, RewriteRequest, pick);
        }
      }
    }
  }

  /** What any projection of DispatchRequest's effects is, event by event. */
  lemma DispatchCollect<T>(buffered: Bytes, c: Collaborators, pick: Event -> seq<T>)
    ensures var envelope := OutboundEnvelope(buffered);
            Collect(DispatchTrace(buffered, c).events, pick) ==
              pick(EncodeEnvelope(envelope))
              + (if c.encode.Some? then []
                 else pick(ResolveConfig(None)) + pick(Post(c.config(None).backendURL, JsonContentType, envelope)))
  {
    var envelope := OutboundEnvelope(buffered);
    var post := Post(c.config(None).backendURL, JsonContentType, envelope);
    if c.encode.None? {
      CollectAppend([EncodeEnvelope(envelope)], [ResolveConfig(None), post], pick);
      CollectPair(ResolveConfig(None), post, pick);
    }
  }

  /** What any projection of the acquisition effects is. */
  lemma AcquireCollect<T>(pick: Event -> seq<T>)
    ensures Collect(Acquire, pick) ==
              pick(TakeBuffer) + pick(ResetBuffer) + (pick(TakeReader) + pick(AttachReader(InboundBody)))
  {
    CollectAppend([TakeBuffer, ResetBuffer], [TakeReader, AttachReader(InboundBody)], pick);
    CollectPair(TakeBuffer, ResetBuffer, pick);
    CollectPair(TakeReader, AttachReader(InboundBody), pick);
  }

  /** What any projection of ServeHTTP's effects is, phase by phase. */
  lemma ServeCollect<T>(r: Request, c: Collaborators, pick: Event -> seq<T>)
    ensures var accept := AcceptTrace(ContextValues(r), r.requestURI, c);
            Collect(ServeTrace(r, c).events, pick) ==
              Collect(Acquire, pick) + Collect(accept.events, pick) + Collect(Finish(accept, c).events, pick)
  {
    var accept := AcceptTrace(ContextValues(r), r.requestURI, c);
    CollectAppend(Acquire, accept.events, pick);
    CollectAppend(Acquire + accept.events, Finish(accept, c).events, pick);
  }

  /** What any projection of the effects after AcceptRequest is, when it failed. */
  lemma FinishCollectAcceptFailed<T>(accept: AcceptRun, c: Collaborators, pick: Event -> seq<T>)
    requires accept.err.Some?
    ensures Collect(Finish(accept, c).events, pick) == pick(ReturnBuffer) + pick(HandleError(accept.err.value))
  {
    CollectPair(ReturnBuffer, HandleError(accept.err.value), pick);
  }

  /** What any projection of the effects after AcceptRequest is, when dispatch failed. */
  lemma FinishCollectDispatchFailed<T>(accept: AcceptRun, c: Collaborators, pick: Event -> seq<T>)
    requires accept.err.None? && DispatchTrace(accept.written, c).response.Failure?
    ensures Collect(Finish(accept, c).events, pick) ==
              Collect(DispatchTrace(accept.written, c).events, pick)
              + (pick(ReturnReader) + pick(ReturnBuffer)) + pick(Close(InboundBody))
  {
    CollectAppend(DispatchTrace(accept.written, c).events, ReleaseInbound, pick);
    CollectAppend([ReturnReader, ReturnBuffer], [Close(InboundBody)], pick);
    CollectPair(ReturnReader, ReturnBuffer, pick);
  }

  /** What any projection of the effects after AcceptRequest is, once dispatch succeeded. */
  lemma FinishCollectRelayed<T>(accept: AcceptRun, c: Collaborators, pick: Event -> seq<T>)
    requires accept.err.None? && DispatchTrace(accept.written, c).response.Success?
    ensures var dispatch := DispatchTrace(accept.written, c);
            var relay := Relay(dispatch.response.value, c.relay);
            Collect(Finish(accept, c).events, pick) ==
              Collect(dispatch.events, pick) + Collect(Release(relay.0), pick)
              + (if relay.1.Some? then pick(HandleError(relay.1.value)) else [])
  {
    var dispatch := DispatchTrace(accept.written, c);
    var relay := Relay(dispatch.response.value, c.relay);
    CollectAppend(dispatch.events, Release(relay.0), pick);
    if relay.1.Some? {
      CollectAppend(dispatch.events + Release(relay.0), [HandleError(relay.1.value)], pick);
    }
  }

  /** What any projection of the relay and the deferred cleanup is, event by event. */
  lemma ReleaseCollect<T>(written: Bytes, pick: Event -> seq<T>)
    ensures Collect(Release(written), pick) ==
              pick(AttachReader(BackendBody)) + pick(WriteResponse(written))
              + (pick(ReturnReader) + pick(ReturnBuffer))
              + (pick(Close(InboundBody)) + pick(Close(BackendBody)))
  {
    var relayed := [AttachReader(BackendBody), WriteResponse(written)];
    CollectAppend(relayed + [ReturnReader, ReturnBuffer], [Close(InboundBody), Close(BackendBody)], pick);
    CollectAppend(relayed, [ReturnReader, ReturnBuffer], pick);
    CollectPair(AttachReader(BackendBody), WriteResponse(written), pick);
    CollectPair(ReturnReader, ReturnBuffer, pick);
    CollectPair(Close(InboundBody), Close(BackendBody), pick);
  }

  // ------------------------------------------------------------ properties

  /** The first `n` steps of AcceptRequest (in the order of AcceptSteps) succeed
      when they run. */
  predicate Succeeds(c: Collaborators, n: nat)
  {
    && (n > 0 ==> c.setSchema.None?)
    && (n > 1 ==> c.decoded.Success?)
    && (n > 2 ==> c.invoke.None?)
    && (n > 3 ==> c.rewrite.None?)
  }

  /** Encoding the envelope and posting it both succeed. */
  predicate DispatchSucceeds(c: Collaborators)
  {
    c.encode.None? && c.post.Success?
  }

  /** AcceptRequest runs SetSchema, Decode, InvokeMiddleWares and RewriteRequest in
      that order, runs a step only when every earlier one succeeded, and returns the
      error of the last step it ran. */
  lemma AcceptStopsAtFirstFailure(contextValues: map<Bytes, Bytes>, requestURI: Bytes, c: Collaborators)
    ensures var run := AcceptTrace(contextValues, requestURI, c);
            var ran := Collect(run.events, StepOf);
            && 1 <= |ran| <= |AcceptSteps|
            && ran == AcceptSteps[..|ran|]
            && Succeeds(c, |ran| - 1)
            && run.err == StepError(c, ran[|ran| - 1])
            && (|ran| < |AcceptSteps| ==> run.err.Some?)
  {
    AcceptStepsRan(contextValues, requestURI, c);
  }

  /** The steps AcceptRequest runs, for each way it can end. */
  lemma AcceptStepsRan(contextValues: map<Bytes, Bytes>, requestURI: Bytes, c: Collaborators)
    ensures Collect(AcceptTrace(contextValues, requestURI, c).events, StepOf) ==
              if !Succeeds(c, 1) then [SetSchemaStep]
              else if !Succeeds(c, 2) then [SetSchemaStep, DecodeStep]
              else if !Succeeds(c, 3) then [SetSchemaStep, DecodeStep, InvokeStep]
              else AcceptSteps
  {
    AcceptCollect(contextValues, requestURI, c, StepOf);
  }

  /** AcceptRequest never reports an error itself, writes nothing to the response and
      sends nothing to the backend: all of that is left to its caller. */
  lemma AcceptLeavesResponseAlone(contextValues: map<Bytes, Bytes>, requestURI: Bytes, c: Collaborators)
    ensures var events := AcceptTrace(contextValues, requestURI, c).events;
            && Collect(events, ReportedError) == []
            && Collect(events, WrittenBytes) == []
            && Collect(events, PostOf) == []
  {
    AcceptCollect(contextValues, requestURI, c, ReportedError);
    AcceptCollect(contextValues, requestURI, c, WrittenBytes);
    AcceptCollect(contextValues, requestURI, c, PostOf);
  }

  /** The invoker is taken once, has its schema set from the route's config before
      any use, is used only while earlier steps succeed, and is put back exactly once
      as the last effect, whichever step fails. */
  lemma AcceptInvokerLifecycle(contextValues: map<Bytes, Bytes>, requestURI: Bytes, c: Collaborators)
    ensures var events := AcceptTrace(contextValues, requestURI, c).events;
            && Collect(events, InvokerUse) ==
                 [TakeInvoker, SetSchema(c.config(Some(requestURI)).schema)]
                 + (if Succeeds(c, 2) then [InvokeMiddleWares(contextValues, c.decoded.value.query)] else [])
                 + (if Succeeds(c, 3) then [RewriteRequest] else [])
                 + [ReturnInvoker]
            && events[|events| - 1] == ReturnInvoker
  {
    AcceptCollect(contextValues, requestURI, c, InvokerUse);
  }

  /** The buffer is touched only by RewriteRequest, and only when the three steps
      before it succeeded; it then holds exactly what RewriteRequest wrote.
      AcceptRequest reports success exactly when all four steps succeed. */
  lemma AcceptWritesBufferOnlyInRewrite(contextValues: map<Bytes, Bytes>, requestURI: Bytes, c: Collaborators)
    ensures var run := AcceptTrace(contextValues, requestURI, c);
            && Collect(run.events, BufferUse) == (if Succeeds(c, 3) then [RewriteRequest] else [])
            && run.written == (if Succeeds(c, 3) then c.rewritten else [])
            && (run.err.None? <==> Succeeds(c, 4))
  {
    AcceptCollect(contextValues, requestURI, c, BufferUse);
  }

  /** AcceptRequest decodes from the buffered reader only once SetSchema succeeded,
      and never takes or returns the reader itself. */
  lemma AcceptReadsBodyAfterSchema(contextValues: map<Bytes, Bytes>, requestURI: Bytes, c: Collaborators)
    ensures Collect(AcceptTrace(contextValues, requestURI, c).events, ReaderUse) ==
              if Succeeds(c, 1) then [DecodeBody] else []
  {
    AcceptCollect(contextValues, requestURI, c, ReaderUse);
  }

  /** AcceptRequest resolves configuration once, with the request URI, and invokes the
      middleware chain at most once, with the decoded query, only after decoding
      succeeded. */
  lemma AcceptRouteKeyAndInvocation(contextValues: map<Bytes, Bytes>, requestURI: Bytes, c: Collaborators)
    ensures var events := AcceptTrace(contextValues, requestURI, c).events;
            && Collect(events, RouteKeyOf) == [Some(requestURI)]
            && Collect(events, Invocation) ==
                 if Succeeds(c, 2) then [(contextValues, c.decoded.value.query)] else []
  {
    AcceptCollect(contextValues, requestURI, c, RouteKeyOf);
    AcceptCollect(contextValues, requestURI, c, Invocation);
  }

  /** Which way ServeHTTP leaves, in terms of the collaborators' outcomes alone. */
  lemma ServeExit(r: Request, c: Collaborators)
    ensures var exit := ServeTrace(r, c).exit;
            && (exit.AcceptFailed? <==> !Succeeds(c, 4))
            && (exit.DispatchFailed? <==> Succeeds(c, 4) && !DispatchSucceeds(c))
            && (exit.RelayFailed? <==> Succeeds(c, 4) && DispatchSucceeds(c) && c.relay.FailAfter?)
            && (exit.Served? <==> Succeeds(c, 4) && DispatchSucceeds(c) && c.relay.CopyAll?)
            && (exit.DispatchFailed? ==> exit.error == if c.encode.Some? then c.encode.value else c.post.error)
            && (exit.RelayFailed? ==> exit.error == c.relay.error)
            && (exit.AcceptFailed? ==>
                  exit.error == if c.setSchema.Some? then c.setSchema.value
                                else if c.decoded.Failure? then c.decoded.error
                                else if c.invoke.Some? then c.invoke.value
                                else c.rewrite.value)
  {
  }

  /** The pooled buffer is taken once, reset before anything else touches it, written
      by RewriteRequest and read by the encoder only when those run, and returned to
      its pool exactly once, after its last use, on every exit path. */
  lemma ServeBufferLifecycle(r: Request, c: Collaborators)
    ensures Collect(ServeTrace(r, c).events, BufferUse) ==
              [TakeBuffer, ResetBuffer]
              + (if Succeeds(c, 3) then [RewriteRequest] else [])
              + ((if Succeeds(c, 4) then [EncodeEnvelope(OutboundEnvelope(c.rewritten))] else []) + [ReturnBuffer])
  {
    var accept := AcceptTrace(ContextValues(r), r.requestURI, c);
    ServeCollect(r, c, BufferUse);
    assert Collect(Acquire, BufferUse) == [TakeBuffer, ResetBuffer] by { AcquireCollect(BufferUse); }
    AcceptWritesBufferOnlyInRewrite(ContextValues(r), r.requestURI, c);
    assert Collect(Finish(accept, c).events, BufferUse) ==
             (if Succeeds(c, 4) then [EncodeEnvelope(OutboundEnvelope(c.rewritten))] else []) + [ReturnBuffer] by {
      FinishBufferUse(accept, c);
    }
  }

  lemma FinishBufferUse(accept: AcceptRun, c: Collaborators)
    ensures Collect(Finish(accept, c).events, BufferUse) ==
              (if accept.err.Some? then [] else [EncodeEnvelope(OutboundEnvelope(accept.written))]) + [ReturnBuffer]
  {
    if accept.err.Some? {
      FinishCollectAcceptFailed(accept, c, BufferUse);
    } else if DispatchTrace(accept.written, c).response.Failure? {
      FinishBufferUseOnDispatchFailure(accept, c);
    } else {
      FinishBufferUseOnRelay(accept, c);
    }
  }

  lemma FinishBufferUseOnDispatchFailure(accept: AcceptRun, c: Collaborators)
    requires accept.err.None? && DispatchTrace(accept.written, c).response.Failure?
    ensures Collect(Finish(accept, c).events, BufferUse) == [EncodeEnvelope(OutboundEnvelope(accept.written)), ReturnBuffer]
  {
    FinishCollectDispatchFailed(accept, c, BufferUse);
    DispatchCollect(accept.written, c, BufferUse);
  }

  lemma FinishBufferUseOnRelay(accept: AcceptRun, c: Collaborators)
    requires accept.err.None? && DispatchTrace(accept.written, c).response.Success?
    ensures Collect(Finish(accept, c).events, BufferUse) == [EncodeEnvelope(OutboundEnvelope(accept.written)), ReturnBuffer]
  {
    FinishCollectRelayed(accept, c, BufferUse);
    DispatchCollect(accept.written, c, BufferUse);
    ReleaseCollect(Relay(DispatchTrace(accept.written, c).response.value, c.relay).0, BufferUse);
  }

  /** The buffered reader is attached to the inbound body before decoding, and then
      attached to the backend body, and the response copied through it, only when
      dispatch succeeded. It is returned once, after its last use, after a dispatch
      or relay failure and on success, and never when AcceptRequest fails: that
      path leaks it. */
  lemma ServeReaderLifecycle(r: Request, c: Collaborators)
    ensures Collect(ServeTrace(r, c).events, ReaderUse) ==
              [TakeReader, AttachReader(InboundBody)]
              + (if Succeeds(c, 1) then [DecodeBody] else [])
              + (if !Succeeds(c, 4) then []
                 else if !DispatchSucceeds(c) then [ReturnReader]
                 else [AttachReader(BackendBody), WriteResponse(Relay(c.post.value, c.relay).0), ReturnReader])
  {
    var accept := AcceptTrace(ContextValues(r), r.requestURI, c);
    ServeCollect(r, c, ReaderUse);
    assert Collect(Acquire, ReaderUse) == [TakeReader, AttachReader(InboundBody)] by { AcquireCollect(ReaderUse); }
    AcceptReadsBodyAfterSchema(ContextValues(r), r.requestURI, c);
    assert Collect(Finish(accept, c).events, ReaderUse) ==
             if !Succeeds(c, 4) then []
             else if !DispatchSucceeds(c) then [ReturnReader]
             else [AttachReader(BackendBody), WriteResponse(Relay(c.post.value, c.relay).0), ReturnReader] by {
      AcceptWritesBufferOnlyInRewrite(ContextValues(r), r.requestURI, c);
      FinishReaderUse(accept, c);
    }
  }

  lemma FinishReaderUse(accept: AcceptRun, c: Collaborators)
    ensures Collect(Finish(accept, c).events, ReaderUse) ==
              if accept.err.Some? then []
              else if !DispatchSucceeds(c) then [ReturnReader]
              else [AttachReader(BackendBody), WriteResponse(Relay(c.post.value, c.relay).0), ReturnReader]
  {
    if accept.err.Some? {
      FinishCollectAcceptFailed(accept, c, ReaderUse);
    } else if DispatchTrace(accept.written, c).response.Failure? {
      FinishReaderUseOnDispatchFailure(accept, c);
    } else {
      FinishReaderUseOnRelay(accept, c);
    }
  }

  lemma FinishReaderUseOnDispatchFailure(accept: AcceptRun, c: Collaborators)
    requires accept.err.None? && DispatchTrace(accept.written, c).response.Failure?
    ensures Collect(Finish(accept, c).events, ReaderUse) == [ReturnReader]
  {
    FinishCollectDispatchFailed(accept, c, ReaderUse);
    DispatchCollect(accept.written, c, ReaderUse);
  }

  lemma FinishReaderUseOnRelay(accept: AcceptRun, c: Collaborators)
    requires accept.err.None? && DispatchTrace(accept.written, c).response.Success?
    ensures Collect(Finish(accept, c).events, ReaderUse) ==
              [AttachReader(BackendBody), WriteResponse(Relay(c.post.value, c.relay).0), ReturnReader]
  {
    FinishCollectRelayed(accept, c, ReaderUse);
    DispatchCollect(accept.written, c, ReaderUse);
    ReleaseCollect(Relay(DispatchTrace(accept.written, c).response.value, c.relay).0, ReaderUse);
  }

  /** Across the whole request the invoker is used exactly as AcceptRequest uses it:
      ServeHTTP itself never touches it, so it is taken and put back once. */
  lemma ServeInvokerLifecycle(r: Request, c: Collaborators)
    ensures Collect(ServeTrace(r, c).events, InvokerUse) ==
              [TakeInvoker, SetSchema(c.config(Some(r.requestURI)).schema)]
              + (if Succeeds(c, 2) then [InvokeMiddleWares(ContextValues(r), c.decoded.value.query)] else [])
              + (if Succeeds(c, 3) then [RewriteRequest] else [])
              + [ReturnInvoker]
  {
    ServeCollect(r, c, InvokerUse);
    assert Collect(Acquire, InvokerUse) == [] by { AcquireCollect(InvokerUse); }
    AcceptInvokerLifecycle(ContextValues(r), r.requestURI, c);
    FinishInvokerUse(AcceptTrace(ContextValues(r), r.requestURI, c), c);
  }

  lemma FinishInvokerUse(accept: AcceptRun, c: Collaborators)
    ensures Collect(Finish(accept, c).events, InvokerUse) == []
  {
    if accept.err.Some? {
      FinishCollectAcceptFailed(accept, c, InvokerUse);
    } else if DispatchTrace(accept.written, c).response.Failure? {
      FinishInvokerUseOnDispatchFailure(accept, c);
    } else {
      FinishInvokerUseOnRelay(accept, c);
    }
  }

  lemma FinishInvokerUseOnDispatchFailure(accept: AcceptRun, c: Collaborators)
    requires accept.err.None? && DispatchTrace(accept.written, c).response.Failure?
    ensures Collect(Finish(accept, c).events, InvokerUse) == []
  {
    FinishCollectDispatchFailed(accept, c, InvokerUse);
    DispatchCollect(accept.written, c, InvokerUse);
  }

  lemma FinishInvokerUseOnRelay(accept: AcceptRun, c: Collaborators)
    requires accept.err.None? && DispatchTrace(accept.written, c).response.Success?
    ensures Collect(Finish(accept, c).events, InvokerUse) == []
  {
    FinishCollectRelayed(accept, c, InvokerUse);
    DispatchCollect(accept.written, c, InvokerUse);
    ReleaseCollect(Relay(DispatchTrace(accept.written, c).response.value, c.relay).0, InvokerUse);
  }

  /** No stream is closed when AcceptRequest fails; the inbound body alone when
      dispatch fails; the inbound body and then the backend body, once each, otherwise. */
  lemma ServeClosesStreams(r: Request, c: Collaborators)
    ensures Collect(ServeTrace(r, c).events, ClosedStream) ==
              if !Succeeds(c, 4) then []
              else if !DispatchSucceeds(c) then [InboundBody]
              else [InboundBody, BackendBody]
  {
    var accept := AcceptTrace(ContextValues(r), r.requestURI, c);
    ServeCollect(r, c, ClosedStream);
    assert Collect(Acquire, ClosedStream) == [] by { AcquireCollect(ClosedStream); }
    assert Collect(accept.events, ClosedStream) == [] by {
      AcceptCollect(ContextValues(r), r.requestURI, c, ClosedStream);
    }
    assert Collect(Finish(accept, c).events, ClosedStream) ==
             if !Succeeds(c, 4) then []
             else if !DispatchSucceeds(c) then [InboundBody]
             else [InboundBody, BackendBody] by {
      AcceptWritesBufferOnlyInRewrite(ContextValues(r), r.requestURI, c);
      FinishClosesStreams(accept, c);
    }
  }

  lemma FinishClosesStreams(accept: AcceptRun, c: Collaborators)
    ensures Collect(Finish(accept, c).events, ClosedStream) ==
              if accept.err.Some? then []
              else if !DispatchSucceeds(c) then [InboundBody]
              else [InboundBody, BackendBody]
  {
    if accept.err.Some? {
      FinishCollectAcceptFailed(accept, c, ClosedStream);
    } else if DispatchTrace(accept.written, c).response.Failure? {
      FinishClosesStreamsOnDispatchFailure(accept, c);
    } else {
      FinishClosesStreamsOnRelay(accept, c);
    }
  }

  lemma FinishClosesStreamsOnDispatchFailure(accept: AcceptRun, c: Collaborators)
    requires accept.err.None? && DispatchTrace(accept.written, c).response.Failure?
    ensures Collect(Finish(accept, c).events, ClosedStream) == [InboundBody]
  {
    FinishCollectDispatchFailed(accept, c, ClosedStream);
    DispatchCollect(accept.written, c, ClosedStream);
  }

  lemma FinishClosesStreamsOnRelay(accept: AcceptRun, c: Collaborators)
    requires accept.err.None? && DispatchTrace(accept.written, c).response.Success?
    ensures Collect(Finish(accept, c).events, ClosedStream) == [InboundBody, BackendBody]
  {
    FinishCollectRelayed(accept, c, ClosedStream);
    DispatchCollect(accept.written, c, ClosedStream);
    ReleaseCollect(Relay(DispatchTrace(accept.written, c).response.value, c.relay).0, ClosedStream);
  }

  /** HandleError runs exactly once, with the failing step's error, when AcceptRequest
      or the relay fails, and never after a dispatch failure or on success. */
  lemma ServeReportsErrors(r: Request, c: Collaborators)
    ensures var run := ServeTrace(r, c);
            Collect(run.events, ReportedError) ==
              if run.exit.AcceptFailed? || run.exit.RelayFailed? then [run.exit.error] else []
  {
    var accept := AcceptTrace(ContextValues(r), r.requestURI, c);
    var finish := Finish(accept, c);
    assert ServeTrace(r, c).exit == finish.exit;
    assert Collect(ServeTrace(r, c).events, ReportedError) == Collect(finish.events, ReportedError) by {
      ServeCollect(r, c, ReportedError);
      AcquireCollect(ReportedError);
      AcceptLeavesResponseAlone(ContextValues(r), r.requestURI, c);
    }
    FinishReportedError(accept, c);
  }

  lemma FinishReportedError(accept: AcceptRun, c: Collaborators)
    ensures var finish := Finish(accept, c);
            Collect(finish.events, ReportedError) ==
              if finish.exit.AcceptFailed? || finish.exit.RelayFailed? then [finish.exit.error] else []
  {
    if accept.err.Some? {
      FinishCollectAcceptFailed(accept, c, ReportedError);
    } else if DispatchTrace(accept.written, c).response.Failure? {
      FinishReportedErrorOnDispatchFailure(accept, c);
    } else {
      FinishReportedErrorOnRelay(accept, c);
    }
  }

  lemma FinishReportedErrorOnDispatchFailure(accept: AcceptRun, c: Collaborators)
    requires accept.err.None? && DispatchTrace(accept.written, c).response.Failure?
    ensures Collect(Finish(accept, c).events, ReportedError) == []
  {
    FinishCollectDispatchFailed(accept, c, ReportedError);
    DispatchCollect(accept.written, c, ReportedError);
  }

  lemma FinishReportedErrorOnRelay(accept: AcceptRun, c: Collaborators)
    requires accept.err.None? && DispatchTrace(accept.written, c).response.Success?
    ensures Collect(Finish(accept, c).events, ReportedError) == if c.relay.FailAfter? then [c.relay.error] else []
  {
    FinishCollectRelayed(accept, c, ReportedError);
    DispatchCollect(accept.written, c, ReportedError);
    ReleaseCollect(Relay(DispatchTrace(accept.written, c).response.value, c.relay).0, ReportedError);
  }

  /** Nothing is written to the response unless dispatch succeeded; then what is
      written is a prefix of the backend's body, and all of it on success. */
  lemma ServeRelaysBackendBody(r: Request, c: Collaborators)
    ensures var run := ServeTrace(r, c);
            var written := Collect(run.events, WrittenBytes);
            && (!(Succeeds(c, 4) && DispatchSucceeds(c)) ==> written == [])
            && (Succeeds(c, 4) && DispatchSucceeds(c) ==> written <= c.post.value)
            && (run.exit.Served? ==> written == c.post.value)
  {
    var accept := AcceptTrace(ContextValues(r), r.requestURI, c);
    ServeCollect(r, c, WrittenBytes);
    assert Collect(Acquire, WrittenBytes) == [] by { AcquireCollect(WrittenBytes); }
    assert Collect(accept.events, WrittenBytes) == [] by {
      AcceptCollect(ContextValues(r), r.requestURI, c, WrittenBytes);
    }
    assert accept.err.None? <==> Succeeds(c, 4) by {
      AcceptWritesBufferOnlyInRewrite(ContextValues(r), r.requestURI, c);
    }
    FinishWrittenBytes(accept, c);
  }

  lemma FinishWrittenBytes(accept: AcceptRun, c: Collaborators)
    ensures var finish := Finish(accept, c);
            var written := Collect(finish.events, WrittenBytes);
            && (!(accept.err.None? && DispatchSucceeds(c)) ==> written == [])
            && (accept.err.None? && DispatchSucceeds(c) ==> written <= c.post.value)
            && (finish.exit.Served? ==> written == c.post.value)
  {
    if accept.err.Some? {
      FinishCollectAcceptFailed(accept, c, WrittenBytes);
    } else if DispatchTrace(accept.written, c).response.Failure? {
      FinishWrittenBytesOnDispatchFailure(accept, c);
    } else {
      FinishWrittenBytesOnRelay(accept, c);
    }
  }

  lemma FinishWrittenBytesOnDispatchFailure(accept: AcceptRun, c: Collaborators)
    requires accept.err.None? && DispatchTrace(accept.written, c).response.Failure?
    ensures Collect(Finish(accept, c).events, WrittenBytes) == []
  {
    FinishCollectDispatchFailed(accept, c, WrittenBytes);
    DispatchCollect(accept.written, c, WrittenBytes);
  }

  lemma FinishWrittenBytesOnRelay(accept: AcceptRun, c: Collaborators)
    requires accept.err.None? && DispatchTrace(accept.written, c).response.Success?
    ensures Collect(Finish(accept, c).events, WrittenBytes) == Relay(c.post.value, c.relay).0
  {
    var relay := Relay(c.post.value, c.relay);
    assert Collect(Finish(accept, c).events, WrittenBytes) == relay.0 by {
      FinishCollectRelayed(accept, c, WrittenBytes);
      DispatchCollect(accept.written, c, WrittenBytes);
      ReleaseCollect(relay.0, WrittenBytes);
    }
  }

  /** At most one request reaches the backend, and only after AcceptRequest succeeded.
      Its envelope carries exactly the bytes RewriteRequest produced as query and an
      empty operation name, and it goes to the backend of the nil route key, whatever
      the inbound request URI was. */
  lemma ServeForwardsRewrittenQuery(r: Request, c: Collaborators)
    ensures Collect(ServeTrace(r, c).events, PostOf) ==
              if Succeeds(c, 4) && c.encode.None?
              then [Post(c.config(None).backendURL, JsonContentType, GraphqlJsonRequest([], c.rewritten))]
              else []
  {
    var accept := AcceptTrace(ContextValues(r), r.requestURI, c);
    ServeCollect(r, c, PostOf);
    assert Collect(Acquire, PostOf) == [] by { AcquireCollect(PostOf); }
    assert Collect(accept.events, PostOf) == [] by {
      AcceptCollect(ContextValues(r), r.requestURI, c, PostOf);
    }
    assert Collect(Finish(accept, c).events, PostOf) ==
             if Succeeds(c, 4) && c.encode.None?
             then [Post(c.config(None).backendURL, JsonContentType, GraphqlJsonRequest([], c.rewritten))]
             else [] by {
      AcceptWritesBufferOnlyInRewrite(ContextValues(r), r.requestURI, c);
      FinishPosts(accept, c);
    }
  }

  lemma FinishPosts(accept: AcceptRun, c: Collaborators)
    ensures Collect(Finish(accept, c).events, PostOf) ==
              if accept.err.None? && c.encode.None?
              then [Post(c.config(None).backendURL, JsonContentType, OutboundEnvelope(accept.written))]
              else []
  {
    if accept.err.Some? {
      FinishCollectAcceptFailed(accept, c, PostOf);
    } else if DispatchTrace(accept.written, c).response.Failure? {
      FinishPostsOnDispatchFailure(accept, c);
    } else {
      FinishPostsOnRelay(accept, c);
    }
  }

  lemma FinishPostsOnDispatchFailure(accept: AcceptRun, c: Collaborators)
    requires accept.err.None? && DispatchTrace(accept.written, c).response.Failure?
    ensures Collect(Finish(accept, c).events, PostOf) ==
              if c.encode.None? then [Post(c.config(None).backendURL, JsonContentType, OutboundEnvelope(accept.written))] else []
  {
    FinishCollectDispatchFailed(accept, c, PostOf);
    DispatchCollect(accept.written, c, PostOf);
  }

  lemma FinishPostsOnRelay(accept: AcceptRun, c: Collaborators)
    requires accept.err.None? && DispatchTrace(accept.written, c).response.Success?
    ensures Collect(Finish(accept, c).events, PostOf) ==
              [Post(c.config(None).backendURL, JsonContentType, OutboundEnvelope(accept.written))]
  {
    FinishCollectRelayed(accept, c, PostOf);
    DispatchCollect(accept.written, c, PostOf);
    ReleaseCollect(Relay(DispatchTrace(accept.written, c).response.value, c.relay).0, PostOf);
  }

  /** Configuration is resolved first with the raw request URI, and a second time,
      with the nil key, only when the envelope was encoded. */
  lemma ServeRouteKeys(r: Request, c: Collaborators)
    ensures Collect(ServeTrace(r, c).events, RouteKeyOf) ==
              [Some(r.requestURI)] + (if Succeeds(c, 4) && c.encode.None? then [None] else [])
  {
    var accept := AcceptTrace(ContextValues(r), r.requestURI, c);
    ServeCollect(r, c, RouteKeyOf);
    assert Collect(Acquire, RouteKeyOf) == [] by { AcquireCollect(RouteKeyOf); }
    assert Collect(accept.events, RouteKeyOf) == [Some(r.requestURI)] by {
      AcceptRouteKeyAndInvocation(ContextValues(r), r.requestURI, c);
    }
    assert Collect(Finish(accept, c).events, RouteKeyOf) ==
             if Succeeds(c, 4) && c.encode.None? then [None] else [] by {
      AcceptWritesBufferOnlyInRewrite(ContextValues(r), r.requestURI, c);
      FinishRouteKeys(accept, c);
    }
  }

  lemma FinishRouteKeys(accept: AcceptRun, c: Collaborators)
    ensures Collect(Finish(accept, c).events, RouteKeyOf) ==
              if accept.err.None? && c.encode.None? then [None] else []
  {
    if accept.err.Some? {
      FinishCollectAcceptFailed(accept, c, RouteKeyOf);
    } else if DispatchTrace(accept.written, c).response.Failure? {
      FinishRouteKeysOnDispatchFailure(accept, c);
    } else {
      FinishRouteKeysOnRelay(accept, c);
    }
  }

  lemma FinishRouteKeysOnDispatchFailure(accept: AcceptRun, c: Collaborators)
    requires accept.err.None? && DispatchTrace(accept.written, c).response.Failure?
    ensures Collect(Finish(accept, c).events, RouteKeyOf) == if c.encode.None? then [None] else []
  {
    FinishCollectDispatchFailed(accept, c, RouteKeyOf);
    DispatchCollect(accept.written, c, RouteKeyOf);
  }

  lemma FinishRouteKeysOnRelay(accept: AcceptRun, c: Collaborators)
    requires accept.err.None? && DispatchTrace(accept.written, c).response.Success?
    ensures Collect(Finish(accept, c).events, RouteKeyOf) == [None]
  {
    FinishCollectRelayed(accept, c, RouteKeyOf);
    DispatchCollect(accept.written, c, RouteKeyOf);
    ReleaseCollect(Relay(DispatchTrace(accept.written, c).response.value, c.relay).0, RouteKeyOf);
  }

  /** The middleware chain runs at most once per request, after decoding succeeded,
      with the decoded query and a context holding only the `user` header. */
  lemma ServeInvokesMiddlewareWithUser(r: Request, c: Collaborators)
    ensures Collect(ServeTrace(r, c).events, Invocation) ==
              if Succeeds(c, 2) then [(ContextValues(r), c.decoded.value.query)] else []
  {
    ServeCollect(r, c, Invocation);
    assert Collect(Acquire, Invocation) == [] by { AcquireCollect(Invocation); }
    AcceptRouteKeyAndInvocation(ContextValues(r), r.requestURI, c);
    FinishInvokesNothing(AcceptTrace(ContextValues(r), r.requestURI, c), c);
  }

  lemma FinishInvokesNothing(accept: AcceptRun, c: Collaborators)
    ensures Collect(Finish(accept, c).events, Invocation) == []
  {
    if accept.err.Some? {
      FinishCollectAcceptFailed(accept, c, Invocation);
    } else if DispatchTrace(accept.written, c).response.Failure? {
      FinishInvokesNothingOnDispatchFailure(accept, c);
    } else {
      FinishInvokesNothingOnRelay(accept, c);
    }
  }

  lemma FinishInvokesNothingOnDispatchFailure(accept: AcceptRun, c: Collaborators)
    requires accept.err.None? && DispatchTrace(accept.written, c).response.Failure?
    ensures Collect(Finish(accept, c).events, Invocation) == []
  {
    FinishCollectDispatchFailed(accept, c, Invocation);
    DispatchCollect(accept.written, c, Invocation);
  }

  lemma FinishInvokesNothingOnRelay(accept: AcceptRun, c: Collaborators)
    requires accept.err.None? && DispatchTrace(accept.written, c).response.Success?
    ensures Collect(Finish(accept, c).events, Invocation) == []
  {
    FinishCollectRelayed(accept, c, Invocation);
    DispatchCollect(accept.written, c, Invocation);
    ReleaseCollect(Relay(DispatchTrace(accept.written, c).response.value, c.relay).0, Invocation);
  }

  // ---------------------------------------------------------- projections

  /** The events that touch the pooled buffer. */
  function BufferUse(e: Event): seq<Event>
  {
    if e.TakeBuffer? || e.ResetBuffer? || e.RewriteRequest? || e.EncodeEnvelope? || e.ReturnBuffer? then [e] else []
  }

  /** The events that touch the pooled buffered reader: decoding reads the inbound
      body through it and `WriteTo` copies the backend body through it. */
  function ReaderUse(e: Event): seq<Event>
  {
    if e.TakeReader? || e.AttachReader? || e.DecodeBody? || e.WriteResponse? || e.ReturnReader? then [e] else []
  }

  /** The events that touch the pooled invoker. */
  function InvokerUse(e: Event): seq<Event>
  {
    if e.TakeInvoker? || e.SetSchema? || e.InvokeMiddleWares? || e.RewriteRequest? || e.ReturnInvoker? then [e] else []
  }

  /** The stream `e` closes, if it closes one. */
  function ClosedStream(e: Event): seq<Stream>
  {
    if e.Close? then [e.stream] else []
  }

  /** The arguments the middleware chain is invoked with, if `e` invokes it. */
  function Invocation(e: Event): seq<(map<Bytes, Bytes>, Bytes)>
  {
    if e.InvokeMiddleWares? then [(e.contextValues, e.query)] else []
  }
}
