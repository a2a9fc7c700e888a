# jaeger-php core, modelled in Dafny

This project models the core of the jaeger-php tracing client. It covers three parts.

- **The tracer** (`Jaeger\Tracer`) does several things:
  - it picks the parent of a new span, which is the first CHILD_OF reference;
  - it builds the new span's context, either as a root or as a child of that parent;
  - it buffers sampled spans;
  - it merges tags and parses the `JAEGER_TAGS` server variable;
  - it guards `inject`/`extract` to the text-map format;
  - on flush, it hands its spans to the transport.
- **The UDP transport** (`Jaeger\Transport\TransportUdp`) does the size-bounded batching:
  - it skips spans whose encoded size exceeds `maxSpanBytes`;
  - it adds the size of every other span to a running total;
  - when the total passes `maxSpanBytes`, it closes a batch, and that batch includes the span that crossed the threshold;
  - it always pushes a final batch, even an empty one;
  - `flush` counts the spans of all pending batches, emits the batches and resets the accounting.
- **The registry** (`Jaeger\Config`) does the following:
  - it memoises a singleton;
  - it creates one tracer per service name and returns the cached tracer on every later request;
  - it can be switched off, in which case it returns a no-op tracer;
  - it rejects an empty service name;
  - it fills in a default sampler and scope manager once and shares them;
  - it chooses the propagator from a name;
  - it flushes every registered tracer.

The modules and what they hold:

- `Types` holds the value entities: span contexts, references, spans, samplers, process records and the server variables.
- `Contexts` holds parent selection and context construction as pure functions. It also has lemmas about whole chains of descendants.
- `EnvTags` holds the parse of `JAEGER_TAGS`:
  - PHP's `explode` for a one-character separator, with its inverse;
  - the tag map the parse loop builds;
  - `getEnvTags` itself, as a method with that loop.
- `Batching` holds the specification of the append loop as a left fold (`Pack` of `Step`), with lemmas on order preservation and accounting.
- `Jaeger` holds the classes `TransportUdp`, `Tracer` and a minimal `ScopeManager`. Each is a Dafny class whose methods update its fields, and each method's contract gives the new state of those fields. `Tracer.StartSpan`, `Tracer.StartActiveSpan`, `TransportUdp.Append`, `TransportUdp.PackSpans` and `Tracer.Flush` are proved against the functions of `Contexts` and `Batching`.
  - The transport's `sent` field stands for the UDP client: flushing appends each emitted batch to it.
  - Generated ids, encoded sizes and server variables are parameters (see "Left out").
- `Configuration` holds `Config` and `ConfigStatics`. PHP's static properties (`$instance`, `$tracers`, `$disabled`, `$propagator`) are fields of one `ConfigStatics` object, which every `Config` refers to.

The code appends a span to the open batch before it decides whether to close that batch. It closes the batch when the running total passes the budget, so a closed batch ends with the span that crossed it. As a result, the comment on `$maxSpanBytes` (the bytes of a batch plus the process record stay within the packet) does not hold for every batch:

- a closed batch can exceed the budget, as `Batching.ClosedBatchCanExceedBudget` shows;
- the final batch can exceed it too once the process record is counted, as `Batching.FinalBatchCanExceedBudget` shows.

`WellPacked` states what does hold, and it is about the running total. That total counts the process record only before the first close, because it restarts at 0 after each close. For every closed batch, the running total was within the budget before the batch's last span. For the first batch this holds only when the seed itself fits. Later batches' totals do not include the process record.

## Model

| member | source | states |
|---|---|---|
| Contexts.ParentContext | src/Jaeger/Tracer.php:194-204 | There is no parent exactly when no reference is CHILD_OF. Otherwise the parent is the context of the first CHILD_OF reference; FOLLOWS_FROM references before it are passed over. |
| Contexts.NewContext | src/Jaeger/Tracer.php:110-127 | The new span id is the first generated id. Root case (no parent, or a parent whose traceIdLow is 0): traceIdLow equals spanId, parentId is 0, the context is sampled iff the sampler decides so, and traceIdHigh is the second generated id in 128-bit mode and 0 otherwise. Child case: traceIdLow, traceIdHigh and flags are the parent's, and parentId is the parent's spanId. |
| Contexts.Descendants | src/Jaeger/Tracer.php:120-126 | Under a parent with a non-zero traceIdLow, a chain of child contexts, each started under the previous one, has one context per generated id. |
| Contexts.DescendantsShareTrace | src/Jaeger/Tracer.php:120-126 | Below a parent with a non-zero traceIdLow, every descendant keeps the parent's trace id halves and flags, carries its own generated id, and names the span before it as parent. |
| Contexts.TraceInheritsRootDecision | src/Jaeger/Tracer.php:110-126 | Take a root started with a non-zero id. Every descendant has the root's trace id, the high id only in 128-bit mode, and the sampling decision taken at the root. |
| EnvTags.Split | src/Jaeger/Tracer.php:209 | explode always yields at least one piece. |
| EnvTags.SplitPiecesLackSeparator | src/Jaeger/Tracer.php:209 | No piece produced by explode contains the separator. |
| EnvTags.JoinSplit | src/Jaeger/Tracer.php:209 | Joining the pieces with the separator gives back the original string. |
| EnvTags.SplitNoSeparator | src/Jaeger/Tracer.php:211 | A string without the separator explodes to itself alone. |
| EnvTags.SplitAtSeparator | src/Jaeger/Tracer.php:211 | Exploding `a sep b`, where `a` has no separator, gives `a` followed by the pieces of `b`. |
| EnvTags.SplitJoin | src/Jaeger/Tracer.php:209 | Pieces that lack the separator survive a join followed by an explode unchanged. |
| EnvTags.SplitHead | src/Jaeger/Tracer.php:211 | The first piece of explode is a prefix without the separator. There is exactly one piece iff the string lacks the separator, and then that piece is the whole string. Otherwise the first piece ends just before the first separator. |
| EnvTags.KeyOf | src/Jaeger/Tracer.php:211 | The key is the text before the first '=': a prefix without '=' that is either the whole piece or followed by '='. A piece without '=' is its own key. |
| EnvTags.ValueOf | src/Jaeger/Tracer.php:211 | The value is null exactly when the piece has no '='. Otherwise it is the text after the first '=' up to the next '=' or the end of the piece. |
| EnvTags.PairDropsTrailingText | src/Jaeger/Tracer.php:211 | In `key=value=rest`, the key is `key` and the value is `value`; the text from the second '=' on is dropped. |
| EnvTags.TagsOf | src/Jaeger/Tracer.php:210-213 | The parse loop's map is empty exactly when there are no pieces, and the key of the last piece is always in it. |
| EnvTags.PairRoundTrip | src/Jaeger/Tracer.php:211-212 | A `key=value` piece parses to that key and value. A piece without '=' parses to its whole text as key and a null value. |
| EnvTags.TagsOfKeys | src/Jaeger/Tracer.php:210-213 | The parsed map has exactly the keys of the pieces. |
| EnvTags.TagsOfLastPieceWins | src/Jaeger/Tracer.php:210-213 | The parsed map has exactly the keys of the pieces. A repeated key takes the value of its last piece. |
| EnvTags.EnvTagsOf | src/Jaeger/Tracer.php:207-216 | No tags exactly when the variable is unset or empty. |
| EnvTags.GetEnvTags | src/Jaeger/Tracer.php:206-217 | An unset or empty variable gives no tags. Otherwise the loop over the comma-separated pieces yields the map `TagsOf` describes. |
| Batching.Step | src/Jaeger/Transport/TransportUdp.php:93-105 | One iteration of the append loop. Its properties are stated by `StepAppendsOrSkips` and `StepKeepsWellPacked`. |
| Batching.Pack | src/Jaeger/Transport/TransportUdp.php:87-106 | The append loop as a left fold of `Step`. Its properties are stated by `PackBounds`, `PackKeepsFittingRecordsInOrder` and `PackIsWellPacked`. |
| Batching.PackBounds | src/Jaeger/Transport/TransportUdp.php:93-105 | The loop closes at most one batch per span. Its final total is within the budget, or nothing was packed and the total is still the seed. |
| Batching.Kept | src/Jaeger/Transport/TransportUdp.php:93-95 | Reference filter: every span it keeps comes from the input and fits the budget, and every input span that fits is kept. |
| Batching.StepAppendsOrSkips | src/Jaeger/Transport/TransportUdp.php:93-105 | An oversized span leaves the whole loop state unchanged, including the total. Any other span is appended after everything already packed. When it pushes the total over the budget, the batch closed at that point ends with it, and the total restarts at 0 with an empty batch. |
| Batching.PackKeepsFittingRecordsInOrder | src/Jaeger/Transport/TransportUdp.php:87-111 | The concatenated batches of one append are exactly the spans that fit, in their original order. |
| Batching.StepKeepsWellPacked | src/Jaeger/Transport/TransportUdp.php:93-105 | One loop iteration preserves the accounting invariant `WellPacked`. |
| Batching.PackIsWellPacked | src/Jaeger/Transport/TransportUdp.php:96-105 | Every closed batch is non-empty and pushed the total over the budget, and its last span fits on its own. Before that last span the total was within the budget (for the first batch, when the seed was). The running total is the bytes of the open batch plus, before any close, the seed. |
| Batching.ClosedBatchCanExceedBudget | src/Jaeger/Transport/TransportUdp.php:39-40 | A concrete run whose closed batch, with the process record, exceeds the budget: the bound in the comment does not hold for closed batches. |
| Batching.FinalBatchCanExceedBudget | src/Jaeger/Transport/TransportUdp.php:39-40 | A concrete run whose final batch, with the process record, exceeds the budget: the bound in the comment does not hold for the final batch either. |
| Batching.Wrap | src/Jaeger/Transport/TransportUdp.php:99-111 | Every batch that is pushed carries the tracer's process record, and an append pushes one batch per closed group plus the final one. |
| Batching.Appended | src/Jaeger/Transport/TransportUdp.php:99-111 | The batches one append pushes, each carrying the process record: the closed groups, then the final one. Its contents are stated by `AppendSendsFittingRecords`. |
| Batching.SpansOfWrap | src/Jaeger/Transport/TransportUdp.php:99-111 | The spans of the pushed batches are the groups' spans, in order. |
| Batching.AppendSendsFittingRecords | src/Jaeger/Transport/TransportUdp.php:87-111 | The batches one append pushes carry exactly the spans that fit, in order: none is lost and none is repeated. |
| Jaeger.ScopeManager.Active | src/Jaeger/Tracer.php:170-177 | No active span exactly when no scope is active. Otherwise it is the span of the innermost scope. |
| Jaeger.KeptSpansAreSampled | src/Jaeger/Transport/TransportUdp.php:93-97 | Dropping oversized spans keeps only sampled spans when every buffered span was sampled. |
| Jaeger.ScopeManager.Activate | src/Jaeger/Tracer.php:191 | Activating pushes a scope, which makes its span the active one. |
| Jaeger.TransportUdp.constructor | src/Jaeger/Transport/TransportUdp.php:52-61 | An empty or "0" host port falls back to 0.0.0.0:5775. An unset packet size falls back to UDP_PACKET_MAX_LENGTH. maxSpanBytes is the packet size minus EMIT_BATCH_OVER_HEAD. Nothing is pending. |
| Jaeger.TransportUdp.BuildAndCalcSizeOfProcess | src/Jaeger/Transport/TransportUdp.php:66-72 | Sets the tracer's process record, records its size and adds that size to the running total. |
| Jaeger.TransportUdp.Append | src/Jaeger/Transport/TransportUdp.php:80-114 | The process record is built, and its size counted, only when the tracer has none. The new batches are `Wrap` of `Pack` over the tracer's spans, with the total seeded by the previous total. The final total is the fold's. The result is true. |
| Jaeger.TransportUdp.PackSpans | src/Jaeger/Transport/TransportUdp.php:86-111 | The loop pushes exactly the batches of the fold and leaves its running total. |
| Jaeger.TransportUdp.ResetBuffer | src/Jaeger/Transport/TransportUdp.php:117-121 | Empties the pending batches and resets the total to the process size. |
| Jaeger.TransportUdp.Flush | src/Jaeger/Transport/TransportUdp.php:145-164 | With nothing pending, returns 0 and changes nothing. Otherwise it emits every pending batch in order and returns the number of spans they hold. Afterwards nothing is pending and the total equals the process size. |
| Jaeger.Tracer.constructor | src/Jaeger/Tracer.php:62-79 | Tags are the sampler's tags merged with those parsed from JAEGER_TAGS. An empty server name falls back to SERVER_NAME, then to "unknow server". There are no spans, no process and no propagator. |
| Jaeger.Tracer.SetTags | src/Jaeger/Tracer.php:92-96 | An empty map leaves the tags unchanged. Otherwise the keys are the union, incoming values override, and the other existing values stay. |
| Jaeger.Tracer.StartSpan | src/Jaeger/Tracer.php:104-140 | The span has the given name, references and tags, and the context `NewContext` gives for the first CHILD_OF parent. It is buffered iff its context is sampled, and the rest of the buffer is untouched. |
| Jaeger.Tracer.StartActiveSpan | src/Jaeger/Tracer.php:179-192 | When there is no explicit CHILD_OF parent and a span is active, the active span's context becomes the parent and the only reference. The new span is activated with the options' finish-on-close flag, and its scope is returned. |
| Jaeger.Tracer.SetPropagator | src/Jaeger/Tracer.php:142-144 | Installs the propagator. |
| Jaeger.Tracer.Gen128bit | src/Jaeger/Tracer.php:219-221 | Turns on 128-bit trace ids. |
| Jaeger.Tracer.Inject | src/Jaeger/Tracer.php:146-152 | Checks the format first and needs a propagator only for the text-map format. Succeeds exactly for the text-map format, with the propagator's result. Any other format fails with "not support format" followed by the format. |
| Jaeger.Tracer.Extract | src/Jaeger/Tracer.php:154-160 | Checks the format first and needs a propagator only for the text-map format. Succeeds exactly for the text-map format, with the propagator's result. Any other format fails with "not support format" followed by the format. |
| Jaeger.Tracer.Flush | src/Jaeger/Tracer.php:223-229 | Without spans, nothing changes. Otherwise the transport first appends and then emits everything pending, so what it emits is the older batches followed by batches holding exactly the spans that fit, in order. The process record is set, and afterwards the buffer and the transport's pending batches are empty. When only sampled spans were buffered, every span handed over is sampled. |
| Configuration.PropagatorFor | src/Jaeger/Config.php:89-90 | The Zipkin propagator iff the name equals PROPAGATOR_ZIPKIN; the Jaeger propagator for PROPAGATOR_JAEGER. |
| Configuration.UrlFor | src/Jaeger/Config.php:74 | The caller's URL unless it is absent or falsy, else the configured URL. |
| Configuration.ConfigStatics.constructor | src/Jaeger/Config.php:31-40 | No instance, no tracers, not disabled, propagator PROPAGATOR_JAEGER. |
| Configuration.ConfigStatics.GetInstance | src/Jaeger/Config.php:45-52 | Returns the existing instance when there is one. Otherwise it creates a default configuration and stores it. Either way the stored instance is the one returned. |
| Configuration.Config.constructor | src/Jaeger/Config.php:20-29 | The server URL is 0.0.0.0:5775; no sampler, no scope manager, 128-bit mode off. |
| Configuration.Config.InitTracer | src/Jaeger/Config.php:60-94 | Disabled gives a no-op tracer before any other check. A falsy name fails with "Server name is required". A registered name gives the cached tracer. In these three cases the registry, sampler and scope manager are untouched. Otherwise a new tracer is registered under the name, and the defaults are filled in once (`DefaultsFilled`). The tracer is `Configured`: it has the shared sampler and scope manager, the 128-bit flag, the chosen propagator, and a new transport to the chosen URL, with nothing pending and its byte accounting (process size and running total) at 0. |
| Configuration.Config.NewTracer | src/Jaeger/Config.php:74-91 | Builds the tracer for an unregistered name. The sampler and scope manager are filled in only when unset. The tracer is fresh and `Configured`. |
| Configuration.Config.SetServerUrl | src/Jaeger/Config.php:100-105 | Sets the configured URL. |
| Configuration.Config.SetDisabled | src/Jaeger/Config.php:111-115 | Sets the shared disabled switch. |
| Configuration.Config.SetSampler | src/Jaeger/Config.php:117-121 | Sets the sampler later tracers get. |
| Configuration.Config.Gen128bit | src/Jaeger/Config.php:123-127 | Later tracers get 128-bit mode. |
| Configuration.Config.Flush | src/Jaeger/Config.php:129-138 | Flushes every registered tracer and returns true. Afterwards every registered tracer has no buffered spans, and the registry is unchanged. |
| Configuration.GetInstanceIsSingleton | src/Jaeger/Config.php:45-52 | Two requests for the configuration yield the same object. |
| Configuration.RepeatedInitReturnsCachedTracer | src/Jaeger/Config.php:70-72 | A second request for a name returns the tracer the first request registered, whatever URL it passes. |
| Configuration.SecondTracerSharesDefaults | src/Jaeger/Config.php:77-93 | Tracers for two new names are distinct, are both registered, and share one `ConstSampler(true)` and one scope manager. |

## Left out

- Span ids come from `generateId` (src/Jaeger/Tracer.php:231-233), which reads the clock and `rand`. They are parameters (`id`, `highId`), and `0` stands for PHP's falsy id.
- Thrift serialisation and the size measurement (`getAndCalcSizeOfSerializedThrift`) are replaced by the parameters `sizeOf` and `processBytes`. A batch holds the model's span and process values, not serialized Thrift.
- The UDP client (`UdpClient`, `emitBatch`, `close`) is network I/O. The transport's `sent` sequence records the emitted batches instead.
- The server variables `SERVER_NAME` and `JAEGER_TAGS` are passed in as `Env`.
- `TransportUdp::$batches` and `$maxSpanBytes` are static in PHP, so all transports share them. The model gives each transport its own. It does not capture one tracer's flush emitting another tracer's pending batches, or a later transport's packet size changing an earlier one's budget.
- Jaeger.TransportUdp.constructor: assumes PHP 7 comparison, where the default `''` equals 0. Under PHP 8, `'' == 0` is false, and the default packet size would reach the subtraction as a string.
- Constants\UDP_PACKET_MAX_LENGTH (65000), EMIT_BATCH_OVER_HEAD (30), PROPAGATOR_JAEGER ("jaeger"), PROPAGATOR_ZIPKIN ("zipkin") and Formats\TEXT_MAP ("text_map") come from files that are not part of this model. Their values are assumed. Two properties depend on them: the transport constructor's arithmetic, and `Configuration.PropagatorFor`'s choice of the Jaeger propagator for PROPAGATOR_JAEGER, which holds only because the two propagator names differ.
- PHP arrays with numeric-string keys are re-keyed as integers, and `array_merge` renumbers integer keys instead of overriding them. Tags are modelled as a map from strings, so numeric tag keys are not modelled.
- Jaeger.Tracer.Inject and Jaeger.Tracer.Extract require a propagator only for the text-map format. With that format and no propagator, PHP fails with a call on null, and the model does not cover that error; any other format fails with the format message first, with or without a propagator. The propagators themselves are parameters (`encode`, `decode`), so no inject/extract round trip is stated.
- `ScopeManager`, `Scope::close`, `Span` and `SpanContext` internals, the samplers and `NoopTracer` are not shown. The scope manager is a stack of scopes. Spans are values, so aliasing through a span object shared by several holders is not captured. A sampler is its decision and its tags, and `ConstSampler(true)` is given no tags.
- Jaeger.TransportUdp.Flush: assumes the send never fails. `flush` is declared to throw, and an exception from `emitBatch` would skip `resetBuffer`, leaving the batches pending and the total unchanged; the model does not capture that path.
- Jaeger.Tracer.Flush: assumes the transport's flush never throws. In PHP such an exception would also skip emptying `$this->spans`, so the spans stay buffered; the model does not capture that path.
- Jaeger.Tracer.StartSpan: the sampler is one fixed decision per tracer (`Sampler.decision`). PHP asks the sampler again for every root span, so a sampler whose decision varies from call to call (one set through `Config::setSampler`) is not modelled. A `true` decision becomes flags 1 and `false` flags 0.
- `SpanContext::isSampled` is not shown. It is taken to return the flags unchanged, which `startSpan` compares with 1 (`Types.IsSampled`), so a span with flags other than 1 (for instance debug plus sampled) is not buffered.
- `StartSpanOptions::withParent` is not shown. It is taken to produce a single CHILD_OF reference and to keep the tags and the finish-on-close flag.
- `Config::$tracers` starts as null in PHP, and `count(null)` in `flush` then depends on the PHP version. The model starts with an empty registry.
- Configuration.Config.Flush: visits the registered tracers in an unspecified order, not PHP's insertion order. It states only that every tracer's buffer ends empty; what each transport emits is stated by Jaeger.Tracer.Flush.
- `Tracer::setHostPort`, `getSpans`, `getScopeManager` and `Config::$span` are left out; they only read or forward state. The Tracer fields `processSize`, `bufferSize` and `spanThrifts` (src/Jaeger/Tracer.php:50, 54, 58) are never used by the code modelled here and are left out.
- `Tracer.process` stands for both `$process` and `$processThrift`. `buildAndCalcSizeOfProcessThrift` sets the two together (src/Jaeger/Transport/TransportUdp.php:68-69). `append` tests the first (line 82) and puts the second into every batch (lines 100, 109). The model keeps one process value.
- Jaeger.Tracer.Flush: assumes the tracer is accepted where `TransportUdp::append` and `buildAndCalcSizeOfProcessThrift` declare a `Jaeger $jaeger` parameter. `Tracer` is declared only as implementing `OpenTracerInterface`, and `Jaeger\Jaeger` is not part of this model. Without an alias, PHP would raise a type error at src/Jaeger/Tracer.php:225; the model does not capture that path.
- Configuration.Config.NewTracer: assumes a `TransportUdp` (declared as implementing `Transport`) is accepted where the Tracer constructor declares a `TransportInterface`. Neither interface is part of this model. Without a link between them, PHP would raise a type error at src/Jaeger/Config.php:85; the model does not capture that path.
- `ConfigStatics.propagator` has no setter, because PHP assigns the public static directly.
