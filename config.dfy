/**
 * The tracer registry (src/Jaeger/Config.php): a singleton configuration
 * that creates one tracer per service name on first request, hands back the
 * cached tracer afterwards, and flushes every registered tracer.
 */
module Configuration {
  import opened Wrappers
  import opened Types
  import opened EnvTags
  import opened Jaeger

  /** The agent address tracers are sent to unless told otherwise. */
  const DEFAULT_SERVER_URL: string := "0.0.0.0:5775"
  /** Constants\PROPAGATOR_JAEGER (the constants file is not part of this model). */
  const PROPAGATOR_JAEGER: string := "jaeger"
  /** Constants\PROPAGATOR_ZIPKIN. */
  const PROPAGATOR_ZIPKIN: string := "zipkin"
  const SERVER_NAME_REQUIRED: string := "Server name is required"

  /** What `initTracer` yields: a no-op tracer, a real one, or the exception it throws. */
  datatype InitResult = NoopTracer | Traced(tracer: Tracer) | Failed(message: string)

  /** The propagator a new tracer gets for the configured propagator name. */
  function PropagatorFor(name: string): (k: PropagatorKind)
    ensures k == ZipkinPropagator <==> name == PROPAGATOR_ZIPKIN
    ensures name == PROPAGATOR_JAEGER ==> k == JaegerPropagator
  {
    if name == PROPAGATOR_ZIPKIN then ZipkinPropagator else JaegerPropagator
  }

  /**
   * The address a new tracer's transport gets: the caller's URL unless it is
   * absent or falsy, else the configured one.
   */
  function UrlFor(serverUrl: Option<string>, configured: string): (url: string)
    ensures serverUrl.Some? && !Falsy(serverUrl.value) ==> url == serverUrl.value
    ensures serverUrl.None? || Falsy(serverUrl.value) ==> url == configured
  {
    if serverUrl.Some? && !Falsy(serverUrl.value) then serverUrl.value else configured
  }

  /** Config's static state, shared by every configuration object. */
  class ConfigStatics {
    var instance: Config?
    var tracers: map<string, Tracer>
    var disabled: bool
    var propagator: string

    constructor()
      ensures instance == null && tracers == map[] && !disabled && propagator == PROPAGATOR_JAEGER
    {
      instance := null;
      tracers := map[];
      disabled := false;
      propagator := PROPAGATOR_JAEGER;
    }

    /** The singleton configuration, created with the defaults on first use. */
    method GetInstance() returns (c: Config)
      modifies this`instance
      ensures old(instance) != null ==> c == old(instance)
      ensures old(instance) == null ==>
        && fresh(c) && c.statics == this
        && c.serverUrl == DEFAULT_SERVER_URL && c.sampler == None && c.scopeManager == null && !c.gen128bit
      ensures instance == c
    {
      if instance == null {
        instance := new Config(this);
      }
      c := instance;
    }
  }

  class Config {
    const statics: ConfigStatics
    var serverUrl: string
    var sampler: Option<Sampler>
    var scopeManager: ScopeManager?
    var gen128bit: bool

    constructor(statics: ConfigStatics)
      ensures this.statics == statics
      ensures serverUrl == DEFAULT_SERVER_URL && sampler == None && scopeManager == null && !gen128bit
    {
      this.statics := statics;
      serverUrl := DEFAULT_SERVER_URL;
      sampler := None;
      scopeManager := null;
      gen128bit := false;
    }

    /**
     * Returns the tracer registered for `serverName`, creating and registering
     * it on first request. `serverUrl` None stands for the omitted argument;
     * `env` holds the server variables the new tracer reads.
     */
    method InitTracer(serverName: string, serverUrl: Option<string>, env: Env) returns (r: InitResult)
      modifies statics`tracers, this`sampler, this`scopeManager
      ensures statics.disabled ==> r == NoopTracer
      ensures statics.disabled || Falsy(serverName) || serverName in old(statics.tracers) ==>
        statics.tracers == old(statics.tracers) && sampler == old(sampler) && scopeManager == old(scopeManager)
      ensures !statics.disabled && Falsy(serverName) ==> r == Failed(SERVER_NAME_REQUIRED)
      ensures !statics.disabled && !Falsy(serverName) && serverName in old(statics.tracers) ==>
        r == Traced(old(statics.tracers)[serverName])
      ensures !statics.disabled && !Falsy(serverName) && serverName !in old(statics.tracers) ==>
        && r.Traced?
        && statics.tracers == old(statics.tracers)[serverName := r.tracer]
        && DefaultsFilled(old(sampler), old(scopeManager))
        && (old(scopeManager) == null ==> fresh(scopeManager))
        && fresh(r.tracer) && fresh(r.tracer.transport)
        && Configured(r.tracer, serverName, UrlFor(serverUrl, this.serverUrl), env)
    {
      if statics.disabled {
        return NoopTracer;
      }
      if Falsy(serverName) {
        return Failed(SERVER_NAME_REQUIRED);
      }
      if serverName in statics.tracers {
        return Traced(statics.tracers[serverName]);
      }
      var tracer := NewTracer(serverName, UrlFor(serverUrl, this.serverUrl), env);
      statics.tracers := statics.tracers[serverName := tracer];
      r := Traced(tracer);
    }

    /**
     * The sampler and scope manager after `initTracer` created a tracer:
     * `ConstSampler(true)` and a new, empty scope manager where none was set,
     * the configured ones otherwise.
     */
    ghost predicate DefaultsFilled(oldSampler: Option<Sampler>, oldScopeManager: ScopeManager?)
      reads this, scopeManager
    {
      && sampler == (if oldSampler.None? then Some(ConstSampler(true)) else oldSampler)
      && scopeManager != null
      && (oldScopeManager != null ==> scopeManager == oldScopeManager)
      && (oldScopeManager == null ==> scopeManager.scopes == [])
    }

    /**
     * A tracer just built by this configuration for `serverName`: it uses the
     * configuration's sampler, scope manager and 128-bit flag, the propagator
     * the static propagator name selects, and a new transport to `url`; it
     * has no spans and no process record yet.
     */
    ghost predicate Configured(tracer: Tracer, serverName: string, url: string, env: Env)
      reads this, statics, tracer, tracer.transport
    {
      && sampler.Some? && tracer.sampler == sampler.value && tracer.scopeManager == scopeManager
      && tracer.serverName == serverName
      && tracer.tags == sampler.value.tags + EnvTagsOf(env.jaegerTags)
      && tracer.spans == [] && tracer.process == None
      && tracer.gen128bit == gen128bit
      && tracer.propagator == Some(PropagatorFor(statics.propagator))
      && tracer.transport.hostPort == (if Falsy(url) then DEFAULT_AGENT_HOST_PORT else url)
      && tracer.transport.maxSpanBytes == UDP_PACKET_MAX_LENGTH - EMIT_BATCH_OVER_HEAD
      && tracer.transport.batches == [] && tracer.transport.sent == []
      && tracer.transport.processSize == 0 && tracer.transport.bufferSize == 0
    }

    /** The creating half of `initTracer`, for a name not yet registered. */
    method NewTracer(serverName: string, url: string, env: Env) returns (tracer: Tracer)
      requires !Falsy(serverName)
      modifies this`sampler, this`scopeManager
      ensures DefaultsFilled(old(sampler), old(scopeManager))
      ensures old(scopeManager) == null ==> fresh(scopeManager)
      ensures fresh(tracer) && fresh(tracer.transport)
      ensures Configured(tracer, serverName, url, env)
    {
      var transport := new TransportUdp(url, 0);
      if sampler.None? {
        sampler := Some(ConstSampler(true));
      }
      if scopeManager == null {
        scopeManager := new ScopeManager();
      }
      tracer := new Tracer(transport, sampler.value, scopeManager, serverName, env);
      if gen128bit {
        tracer.Gen128bit();
      }
      tracer.SetPropagator(PropagatorFor(statics.propagator));
    }

    method SetServerUrl(serverUrl: string)
      modifies this`serverUrl
      ensures this.serverUrl == serverUrl
    {
      this.serverUrl := serverUrl;
    }

    /** Switches tracing off (or back on) for every configuration. */
    method SetDisabled(disabled: bool)
      modifies statics`disabled
      ensures statics.disabled == disabled
    {
      statics.disabled := disabled;
    }

    method SetSampler(sampler: Sampler)
      modifies this`sampler
      ensures this.sampler == Some(sampler)
    {
      this.sampler := Some(sampler);
    }

    method Gen128bit()
      modifies this`gen128bit
      ensures gen128bit
    {
      gen128bit := true;
    }

    /**
     * Flushes every registered tracer. `sizeOf` gives a span's encoded size
     * and `processSizeOf` a process record's.
     */
    method Flush(sizeOf: Span -> nat, processSizeOf: Process -> nat) returns (ok: bool)
      modifies set n | n in statics.tracers :: statics.tracers[n]
      modifies set n | n in statics.tracers :: statics.tracers[n].transport
      ensures ok
      ensures statics.tracers == old(statics.tracers)
      ensures forall n :: n in statics.tracers ==> statics.tracers[n].spans == []
    {
      var tracers := statics.tracers;
      var todo := tracers.Keys;
      while todo != {}
        invariant todo <= tracers.Keys
        invariant statics.tracers == tracers
        invariant forall n :: n in tracers && n !in todo ==> tracers[n].spans == []
        decreases todo
      {
        var name :| name in todo;
        var tracer := tracers[name];
        tracer.Flush(sizeOf, processSizeOf(tracer.ProcessRecord()));
        todo := todo - {name};
      }
      ok := true;
    }
  }

  /** Every request for the configuration yields the same object. */
  method GetInstanceIsSingleton(statics: ConfigStatics) returns (first: Config, second: Config)
    modifies statics`instance
    ensures first == second == statics.instance
  {
    first := statics.GetInstance();
    second := statics.GetInstance();
  }

  /** A second request for the same service yields the tracer the first one registered, whatever URL it passes. */
  method RepeatedInitReturnsCachedTracer(config: Config, serverName: string, serverUrl: Option<string>, env: Env)
    returns (first: InitResult, second: InitResult)
    requires !config.statics.disabled && !Falsy(serverName)
    modifies config.statics`tracers, config`sampler, config`scopeManager
    ensures first.Traced? && second == first
    ensures serverName in config.statics.tracers && config.statics.tracers[serverName] == first.tracer
  {
    first := config.InitTracer(serverName, None, env);
    second := config.InitTracer(serverName, serverUrl, env);
  }

  /** Tracers for two new services are distinct but share the sampler and scope manager created for the first. */
  method SecondTracerSharesDefaults(config: Config, a: string, b: string, env: Env)
    returns (first: Tracer, second: Tracer)
    requires !config.statics.disabled && !Falsy(a) && !Falsy(b) && a != b
    requires a !in config.statics.tracers && b !in config.statics.tracers
    requires config.sampler == None && config.scopeManager == null
    modifies config.statics`tracers, config`sampler, config`scopeManager
    ensures first != second
    ensures first.sampler == second.sampler == ConstSampler(true)
    ensures first.scopeManager == second.scopeManager
    ensures config.statics.tracers == old(config.statics.tracers)[a := first][b := second]
  {
    var r1 := config.InitTracer(a, None, env);
    var r2 := config.InitTracer(b, None, env);
    first, second := r1.tracer, r2.tracer;
  }
}
