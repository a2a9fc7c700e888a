/**
 * The values the tracer exchanges with its collaborators: span contexts,
 * references, start options, spans, samplers and the process record.
 * Their PHP classes (SpanContext, Span, Reference, StartSpanOptions, the
 * samplers) are not part of this model; only the fields the tracer reads
 * and writes are kept.
 */
module Types {
  import opened Wrappers

  /** A trace or span identifier. 0 is the falsy "unset" value the tracer tests for. */
  type Id = nat

  /** A tag value: a string, or PHP null (an environment tag written without '='). */
  datatype TagValue = Text(text: string) | Null

  /** A tag map with string keys. */
  type Tags = map<string, TagValue>

  /** A text-map carrier used by inject and extract. */
  type Carrier = map<string, string>

  /** PHP falsiness of a string, as `empty()` and `?:` test it: "" and "0". */
  predicate Falsy(s: string) {
    s == "" || s == "0"
  }

  /** The portable identity of a span. `traceIdHigh` is 0 unless 128-bit ids are in use. */
  datatype SpanContext = SpanContext(traceIdLow: Id, traceIdHigh: Id, spanId: Id, parentId: Id, flags: nat)

  /**
   * startSpan buffers a span when `isSampled() == 1`, and isSampled() gives
   * the flags themselves: a root stores the sampler's boolean, which PHP
   * compares equal to 1 exactly when it is true, and a child copies its
   * parent's flags, so flags such as 3 (debug and sampled) do not compare
   * equal to 1.
   */
  predicate IsSampled(flags: nat) {
    flags == 1
  }

  datatype ReferenceKind = ChildOf | FollowsFrom

  datatype Reference = Reference(kind: ReferenceKind, context: SpanContext)

  /** The start options of a span: its references, its initial tags, and whether closing its scope finishes it. */
  datatype StartOptions = StartOptions(references: seq<Reference>, tags: Tags, finishSpanOnClose: bool) {

    /** The same options with a single CHILD_OF reference to `parent`. */
    function WithParent(parent: SpanContext): StartOptions {
      StartOptions([Reference(ChildOf, parent)], tags, finishSpanOnClose)
    }
  }

  datatype Span = Span(operationName: string, context: SpanContext, references: seq<Reference>, tags: Tags)

  /** A sampler seen through the two calls the tracer makes on it: IsSampled and getTags. */
  datatype Sampler = Sampler(decision: bool, tags: Tags)

  /** ConstSampler(decision); its descriptive tags are not part of this model. */
  function ConstSampler(decision: bool): Sampler {
    Sampler(decision, map[])
  }

  /** The process record sent with every batch: the service name and the tracer's tags. */
  datatype Process = Process(serviceName: string, tags: Tags)

  datatype PropagatorKind = JaegerPropagator | ZipkinPropagator

  /** The two server variables the tracer reads: SERVER_NAME and JAEGER_TAGS. */
  datatype Env = Env(serverName: Option<string>, jaegerTags: Option<string>)
}
