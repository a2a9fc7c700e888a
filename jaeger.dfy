/**
 * The tracer (src/Jaeger/Tracer.php) and its UDP transport
 * (src/Jaeger/Transport/TransportUdp.php), with the scope manager the tracer
 * consults. Tracer and transport share one module because the transport's
 * append reads and fills in fields of the tracer handed to it.
 */
module Jaeger {
  import opened Wrappers
  import opened Types
  import opened Contexts
  import opened EnvTags
  import opened Batching

  /** Constants\UDP_PACKET_MAX_LENGTH (the constants file is not part of this model). */
  const UDP_PACKET_MAX_LENGTH: nat := 65000
  /** Constants\EMIT_BATCH_OVER_HEAD: bytes reserved for the emitBatch envelope. */
  const EMIT_BATCH_OVER_HEAD: nat := 30
  /** The agent address a transport uses when given none. */
  const DEFAULT_AGENT_HOST_PORT: string := "0.0.0.0:5775"
  /** Formats\TEXT_MAP, the one carrier format the tracer supports. */
  const TEXT_MAP: string := "text_map"
  /** The server name used when neither the caller nor SERVER_NAME gives one. */
  const UNKNOWN_SERVER: string := "unknow server"

  type SpanBatch = Batch<Process, Span>

  datatype Scope = Scope(span: Span, finishOnClose: bool)

  /** The stack of active scopes; its implementation is not part of this model. */
  class ScopeManager {
    var scopes: seq<Scope>

    constructor()
      ensures scopes == []
    {
      scopes := [];
    }

    /** The span of the innermost active scope; none when no scope is active. */
    function Active(): (active: Option<Span>)
      reads this
      ensures active.None? <==> scopes == []
      ensures active.Some? ==> active.value == scopes[|scopes| - 1].span
    {
      if scopes == [] then None else Some(scopes[|scopes| - 1].span)
    }

    method Activate(span: Span, finishOnClose: bool)
      modifies this
      ensures scopes == old(scopes) + [Scope(span, finishOnClose)]
      ensures Active() == Some(span)
    {
      scopes := scopes + [Scope(span, finishOnClose)];
    }
  }

  /**
   * The UDP transport: pending batches, byte accounting, and the datagrams
   * handed to the UDP client (`sent`), which stands for the network.
   */
  class TransportUdp {
    var hostPort: string
    var maxSpanBytes: int
    var batches: seq<SpanBatch>
    var processSize: nat
    var bufferSize: nat
    var sent: seq<SpanBatch>

    /** `maxPacketSize` 0 stands for the unset default. */
    constructor(hostPort: string, maxPacketSize: nat)
      ensures this.hostPort == (if Falsy(hostPort) then DEFAULT_AGENT_HOST_PORT else hostPort)
      ensures maxSpanBytes == (if maxPacketSize == 0 then UDP_PACKET_MAX_LENGTH else maxPacketSize) - EMIT_BATCH_OVER_HEAD
      ensures batches == [] && processSize == 0 && bufferSize == 0 && sent == []
    {
      this.hostPort := if Falsy(hostPort) then DEFAULT_AGENT_HOST_PORT else hostPort;
      var packetSize := maxPacketSize;
      if packetSize == 0 {
        packetSize := UDP_PACKET_MAX_LENGTH;
      }
      maxSpanBytes := packetSize - EMIT_BATCH_OVER_HEAD;
      batches := [];
      processSize := 0;
      bufferSize := 0;
      sent := [];
    }

    /** Builds the tracer's process record and counts its encoded size, `processBytes`, once. */
    method BuildAndCalcSizeOfProcess(t: Tracer, processBytes: nat)
      modifies this`processSize, this`bufferSize, t`process
      ensures t.process == Some(t.ProcessRecord())
      ensures processSize == processBytes
      ensures bufferSize == old(bufferSize) + processBytes
    {
      t.process := Some(t.ProcessRecord());
      processSize := processBytes;
      bufferSize := bufferSize + processSize;
    }

    /**
     * Packs the tracer's spans into batches; `sizeOf` gives a span's encoded
     * size and `processBytes` the process record's.
     */
    method Append(t: Tracer, sizeOf: Span -> nat, processBytes: nat) returns (ok: bool)
      modifies this`processSize, this`bufferSize, this`batches, t`process
      ensures ok
      ensures old(t.process).Some? ==> t.process == old(t.process) && processSize == old(processSize)
      ensures old(t.process).None? ==> t.process == Some(t.ProcessRecord()) && processSize == processBytes
      ensures var seed := old(bufferSize) + (if old(t.process).None? then processBytes else 0);
        && batches == old(batches) + Appended(t.process.value, t.spans, sizeOf, maxSpanBytes, seed)
        && bufferSize == Pack(t.spans, sizeOf, maxSpanBytes, seed).buffer
    {
      if t.process.None? {
        BuildAndCalcSizeOfProcess(t, processBytes);
      }
      PackSpans(t.process.value, t.spans, sizeOf);
      ok := true;
    }

    /**
     * The loop of `Append`: each span that fits on its own joins the open
     * batch and adds its size to the running total; once the total passes
     * `maxSpanBytes` the batch is pushed and the total restarts at 0. The
     * open batch is pushed at the end, even when it is empty.
     */
    method PackSpans(process: Process, spans: seq<Span>, sizeOf: Span -> nat)
      modifies this`bufferSize, this`batches
      ensures batches == old(batches) + Appended(process, spans, sizeOf, maxSpanBytes, old(bufferSize))
      ensures bufferSize == Pack(spans, sizeOf, maxSpanBytes, old(bufferSize)).buffer
    {
      ghost var packing: Packing<Span> := Packing([], [], bufferSize);
      var spanThrifts: seq<Span> := [];
      var i := 0;
      while i < |spans|
        invariant 0 <= i <= |spans|
        invariant packing == Pack(spans[..i], sizeOf, maxSpanBytes, old(bufferSize))
        invariant batches == old(batches) + Wrap(process, packing.closed)
        invariant spanThrifts == packing.current && bufferSize == packing.buffer
      {
        var span := spans[i];
        assert spans[..i + 1] == spans[..i] + [span];
        StepWrapped(process, packing, span, sizeOf, maxSpanBytes, old(batches));
        packing := Step(packing, span, sizeOf, maxSpanBytes);
        var spanSize := sizeOf(span);
        if spanSize <= maxSpanBytes {
          bufferSize := bufferSize + spanSize;
          spanThrifts := spanThrifts + [span];
          if bufferSize > maxSpanBytes {
            batches := batches + [Batch(process, spanThrifts)];
            spanThrifts := [];
            bufferSize := 0;
          }
        }
        i := i + 1;
      }
      assert spans[..|spans|] == spans;
      WrapSnoc(process, packing.closed, spanThrifts);
      batches := batches + [Batch(process, spanThrifts)];
    }

    method ResetBuffer()
      modifies this`bufferSize, this`batches
      ensures bufferSize == processSize && batches == []
    {
      bufferSize := processSize;
      batches := [];
    }

    /** Emits every pending batch and returns how many span records they held. */
    method Flush() returns (spanNum: nat)
      modifies this`batches, this`bufferSize, this`sent
      ensures old(batches) == [] ==> spanNum == 0 && bufferSize == old(bufferSize) && sent == old(sent) && batches == []
      ensures old(batches) != [] ==>
        && spanNum == |SpansOf(old(batches))|
        && sent == old(sent) + old(batches)
        && batches == []
        && bufferSize == processSize
    {
      if |batches| <= 0 {
        return 0;
      }
      spanNum := 0;
      var i := 0;
      while i < |batches|
        invariant 0 <= i <= |batches|
        invariant batches == old(batches)
        invariant spanNum == |SpansOf(batches[..i])|
        invariant sent == old(sent) + batches[..i]
      {
        assert batches[..i + 1][..i] == batches[..i];
        spanNum := spanNum + |batches[i].spans|;
        sent := sent + [batches[i]];
        i := i + 1;
      }
      assert batches[..|batches|] == batches;
      ResetBuffer();
    }
  }

  /** Filtering out oversized spans keeps only sampled spans when all of them were sampled. */
  lemma KeptSpansAreSampled(spans: seq<Span>, sizeOf: Span -> nat, max: int)
    requires forall k :: 0 <= k < |spans| ==> IsSampled(spans[k].context.flags)
    ensures forall s :: s in Kept(spans, sizeOf, max) ==> IsSampled(s.context.flags)
  {
    var kept := Kept(spans, sizeOf, max);
    forall s | s in kept
      ensures IsSampled(s.context.flags)
    {
      var k :| 0 <= k < |kept| && kept[k] == s;
      assert s in spans;
    }
  }

  /** A tracer: its configuration, its tags, and the sampled spans waiting to be flushed. */
  class Tracer {
    const transport: TransportUdp
    const sampler: Sampler
    const scopeManager: ScopeManager
    var gen128bit: bool
    var spans: seq<Span>
    var tags: Tags
    var process: Option<Process>
    var serverName: string
    var propagator: Option<PropagatorKind>

    /** Only sampled spans are ever buffered. */
    ghost predicate Valid()
      reads this
    {
      forall k :: 0 <= k < |spans| ==> IsSampled(spans[k].context.flags)
    }

    /** The process record the transport builds for this tracer. */
    function ProcessRecord(): Process
      reads this`serverName, this`tags
    {
      Process(serverName, tags)
    }

    /** `env` holds the server variables SERVER_NAME and JAEGER_TAGS. */
    constructor(transport: TransportUdp, sampler: Sampler, scopeManager: ScopeManager, serverName: string, env: Env)
      ensures Valid()
      ensures this.transport == transport && this.sampler == sampler && this.scopeManager == scopeManager
      ensures spans == [] && process == None && propagator == None && !gen128bit
      ensures tags == sampler.tags + EnvTagsOf(env.jaegerTags)
      ensures this.serverName == (if serverName == "" then env.serverName.GetOr(UNKNOWN_SERVER) else serverName)
    {
      this.transport := transport;
      this.sampler := sampler;
      this.scopeManager := scopeManager;
      gen128bit := false;
      spans := [];
      tags := map[];
      process := None;
      propagator := None;
      this.serverName := if serverName == "" then env.serverName.GetOr(UNKNOWN_SERVER) else serverName;
      new;
      SetTags(sampler.tags);
      var envTags := GetEnvTags(env.jaegerTags);
      SetTags(envTags);
    }

    /** Merges `incoming` into the tags; an incoming key overrides an existing one. */
    method SetTags(incoming: Tags)
      modifies this`tags
      ensures incoming == map[] ==> tags == old(tags)
      ensures tags.Keys == old(tags).Keys + incoming.Keys
      ensures forall k :: k in incoming ==> tags[k] == incoming[k]
      ensures forall k :: k in old(tags) && k !in incoming ==> tags[k] == old(tags)[k]
    {
      if incoming != map[] {
        tags := tags + incoming;
      }
    }

    /**
     * Starts a span. `id` and `highId` are the values the id generator
     * yields for its first and second call.
     */
    method StartSpan(operationName: string, options: StartOptions, id: Id, highId: Id) returns (span: Span)
      requires Valid()
      modifies this`spans
      ensures Valid()
      ensures span.operationName == operationName && span.references == options.references && span.tags == options.tags
      ensures span.context == NewContext(ParentContext(options.references), sampler.decision, gen128bit, id, highId)
      ensures spans == if IsSampled(span.context.flags) then old(spans) + [span] else old(spans)
    {
      var parentSpan := ParentContext(options.references);
      var newSpan: SpanContext;
      if parentSpan.None? || parentSpan.value.traceIdLow == 0 {
        var low := id;
        var spanId := low;
        var flags := if sampler.decision then 1 else 0;
        newSpan := SpanContext(0, 0, spanId, 0, flags);
        newSpan := newSpan.(traceIdLow := low);
        if gen128bit {
          newSpan := newSpan.(traceIdHigh := highId);
        }
      } else {
        newSpan := SpanContext(0, 0, id, parentSpan.value.spanId, parentSpan.value.flags);
        newSpan := newSpan.(traceIdLow := parentSpan.value.traceIdLow);
        if parentSpan.value.traceIdHigh != 0 {
          newSpan := newSpan.(traceIdHigh := parentSpan.value.traceIdHigh);
        }
      }
      span := Span(operationName, newSpan, options.references, options.tags);
      if IsSampled(newSpan.flags) {
        spans := spans + [span];
      }
    }

    /**
     * Starts a span and activates it. Without an explicit CHILD_OF parent the
     * active span, if there is one, becomes the parent.
     */
    method StartActiveSpan(operationName: string, options: StartOptions, id: Id, highId: Id) returns (scope: Scope)
      requires Valid()
      modifies this`spans, scopeManager
      ensures Valid()
      ensures var explicit := ParentContext(options.references);
        var active := old(scopeManager.Active());
        var parent := if explicit.None? && active.Some? then Some(active.value.context) else explicit;
        && scope.span.context == NewContext(parent, sampler.decision, gen128bit, id, highId)
        && scope.span.references == (if explicit.None? && active.Some? then [Reference(ChildOf, active.value.context)] else options.references)
      ensures scope.span.operationName == operationName && scope.span.tags == options.tags
      ensures scope.finishOnClose == options.finishSpanOnClose
      ensures spans == if IsSampled(scope.span.context.flags) then old(spans) + [scope.span] else old(spans)
      ensures scopeManager.scopes == old(scopeManager.scopes) + [scope]
    {
      var opts := options;
      var parentSpan := ParentContext(opts.references);
      var active := scopeManager.Active();
      if parentSpan.None? && active.Some? {
        opts := opts.WithParent(active.value.context);
        assert ParentContext(opts.references) == Some(active.value.context);
      }
      var span := StartSpan(operationName, opts, id, highId);
      scopeManager.Activate(span, opts.finishSpanOnClose);
      scope := Scope(span, opts.finishSpanOnClose);
    }

    method SetPropagator(propagator: PropagatorKind)
      modifies this`propagator
      ensures this.propagator == Some(propagator)
    {
      this.propagator := Some(propagator);
    }

    method Gen128bit()
      modifies this`gen128bit
      ensures gen128bit
    {
      gen128bit := true;
    }

    /**
     * Writes `context` into `carrier` through the propagator; `encode` stands
     * for the propagator's inject. Only the text-map format is supported; the
     * format is checked before the propagator is used, so an unsupported
     * format fails even when no propagator is installed.
     */
    function Inject(context: SpanContext, format: string, carrier: Carrier,
                    encode: (PropagatorKind, SpanContext, Carrier) -> Carrier): (r: Result<Carrier, string>)
      requires format == TEXT_MAP ==> propagator.Some?
      reads this
      ensures r.Success? <==> format == TEXT_MAP
      ensures r.Success? ==> r.value == encode(propagator.value, context, carrier)
      ensures r.Failure? ==> r.error == "not support format " + format
    {
      if format == TEXT_MAP then Success(encode(propagator.value, context, carrier))
      else Failure("not support format " + format)
    }

    /**
     * Reads a context from `carrier` through the propagator; `decode` stands
     * for the propagator's extract. Only the text-map format is supported; the
     * format is checked before the propagator is used.
     */
    function Extract(format: string, carrier: Carrier,
                     decode: (PropagatorKind, Carrier) -> Option<SpanContext>): (r: Result<Option<SpanContext>, string>)
      requires format == TEXT_MAP ==> propagator.Some?
      reads this
      ensures r.Success? <==> format == TEXT_MAP
      ensures r.Success? ==> r.value == decode(propagator.value, carrier)
      ensures r.Failure? ==> r.error == "not support format " + format
    {
      if format == TEXT_MAP then Success(decode(propagator.value, carrier))
      else Failure("not support format " + format)
    }

    /**
     * Hands the buffered spans to the transport and empties the buffer.
     * `sizeOf` and `processBytes` give the encoded sizes the transport measures.
     */
    method Flush(sizeOf: Span -> nat, processBytes: nat)
      modifies this`spans, this`process, transport
      ensures spans == [] && Valid()
      ensures old(Valid()) ==> forall s :: s in Kept(old(spans), sizeOf, transport.maxSpanBytes) ==> IsSampled(s.context.flags)
      ensures old(spans) == [] ==> process == old(process) && unchanged(transport)
      ensures old(spans) != [] ==>
        && process == (if old(process).None? then Some(old(ProcessRecord())) else old(process))
        && transport.processSize == (if old(process).None? then processBytes else old(transport.processSize))
        && transport.batches == []
        && transport.bufferSize == transport.processSize
        && transport.hostPort == old(transport.hostPort) && transport.maxSpanBytes == old(transport.maxSpanBytes)
        && var seed := old(transport.bufferSize) + (if old(process).None? then processBytes else 0);
           var pushed := Appended(process.value, old(spans), sizeOf, transport.maxSpanBytes, seed);
           && transport.sent == old(transport.sent) + old(transport.batches) + pushed
           && SpansOf(pushed) == Kept(old(spans), sizeOf, transport.maxSpanBytes)
    {
      if Valid() {
        KeptSpansAreSampled(spans, sizeOf, transport.maxSpanBytes);
      }
      if spans != [] {
        ghost var seed := transport.bufferSize + (if process.None? then processBytes else 0);
        ghost var max := transport.maxSpanBytes;
        ghost var before := transport.batches;
        var _ := transport.Append(this, sizeOf, processBytes);
        ghost var pushed := Appended(process.value, spans, sizeOf, max, seed);
        assert transport.batches == before + pushed;
        AppendSendsFittingRecords(process.value, spans, sizeOf, max, seed);
        assert before + pushed != [];
        var _ := transport.Flush();
        assert transport.sent == old(transport.sent) + before + pushed;
        assert transport.maxSpanBytes == max;
        spans := [];
      }
    }
  }
}
