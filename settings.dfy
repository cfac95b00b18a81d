/** The module-level configuration (`STATSD_HOST`, `STATSD_PORT`,
    `STATSD_SAMPLE_RATE`, `STATSD_BUCKET_PREFIX`), how `init_statsd` merges a
    settings dictionary over it, and how a client's constructor falls back
    to it. */
module Settings {
  import opened Python

  /** The four globals, or equally the four fields of a client. */
  datatype Config = Config(host: PyValue, port: PyValue, sampleRate: PyValue, prefix: PyValue)

  /** The values the module starts with. */
  const Defaults := Config(PyStr("localhost"), PyInt(8125), PyNone, PyNone)

  const HostKey := "STATSD_HOST"
  const PortKey := "STATSD_PORT"
  const SampleRateKey := "STATSD_SAMPLE_RATE"
  const PrefixKey := "STATSD_BUCKET_PREFIX"

  /** `settings.get(key, current)`. */
  function Get(settings: map<string, PyValue>, key: string, current: PyValue): PyValue {
    if key in settings then settings[key] else current
  }

  /** The globals after lines 138-144 of `init_statsd`: an empty (falsy)
      dictionary changes nothing; otherwise every recognised key overrides
      its global. `settings=None` behaves as the empty dictionary. */
  function Merge(globals: Config, settings: map<string, PyValue>): Config {
    if settings == map[] then globals
    else Config(Get(settings, HostKey, globals.host),
                Get(settings, PortKey, globals.port),
                Get(settings, SampleRateKey, globals.sampleRate),
                Get(settings, PrefixKey, globals.prefix))
  }

  /** The fields `StatsdClient(host, port, prefix, sample_rate)` stores:
      each argument, or its global when the argument is falsy. */
  function ClientFields(globals: Config, host: PyValue, port: PyValue,
                        prefix: PyValue, sampleRate: PyValue): Config {
    Config(Or(host, globals.host), Or(port, globals.port),
           Or(sampleRate, globals.sampleRate), Or(prefix, globals.prefix))
  }

  /** The fields of the client `init_statsd` installs. It passes its four
      globals positionally in the order host, port, sample rate, prefix, so
      they bind to the parameters host, port, prefix, sample_rate. */
  function DefaultClientFields(globals: Config): Config {
    ClientFields(globals, globals.host, globals.port, globals.sampleRate, globals.prefix)
  }

  // ------------------------------------------------------------------ merge

  /** Each global whose key is present takes the dictionary's value; every
      other global keeps its prior value. */
  lemma MergeOverridesPresentKeys(globals: Config, settings: map<string, PyValue>)
    ensures var g := Merge(globals, settings);
      && (HostKey in settings ==> g.host == settings[HostKey])
      && (HostKey !in settings ==> g.host == globals.host)
      && (PortKey in settings ==> g.port == settings[PortKey])
      && (PortKey !in settings ==> g.port == globals.port)
      && (SampleRateKey in settings ==> g.sampleRate == settings[SampleRateKey])
      && (SampleRateKey !in settings ==> g.sampleRate == globals.sampleRate)
      && (PrefixKey in settings ==> g.prefix == settings[PrefixKey])
      && (PrefixKey !in settings ==> g.prefix == globals.prefix)
  {
  }

  /** Keys other than the four recognised ones have no effect. */
  lemma MergeIgnoresOtherKeys(globals: Config, settings: map<string, PyValue>, key: string, v: PyValue)
    requires key !in {HostKey, PortKey, SampleRateKey, PrefixKey}
    ensures Merge(globals, settings[key := v]) == Merge(globals, settings)
  {
    if settings != map[] {
      assert Get(settings[key := v], HostKey, globals.host) == Get(settings, HostKey, globals.host);
    } else {
      assert settings[key := v] != map[] by { assert key in settings[key := v]; }
    }
  }

  /** Two successive `init_statsd` calls leave the same globals as one call
      with the second dictionary laid over the first. */
  lemma MergeTwice(globals: Config, first: map<string, PyValue>, second: map<string, PyValue>)
    ensures Merge(Merge(globals, first), second) == Merge(globals, first + second)
  {
    if first == map[] {
      assert first + second == second;
    } else if second == map[] {
      assert first + second == first;
    } else {
      assert first + second != map[] by { var k :| k in first; assert k in first + second; }
    }
  }

  /** Repeating `init_statsd` with the same dictionary changes nothing more. */
  lemma MergeIdempotent(globals: Config, settings: map<string, PyValue>)
    ensures Merge(Merge(globals, settings), settings) == Merge(globals, settings)
  {
    MergeTwice(globals, settings, settings);
    assert settings + settings == settings;
  }

  // ------------------------------------------------------------- fallback

  /** A truthy constructor argument is kept; a falsy one (None, 0, 0.0 or
      "") is replaced by its global. */
  lemma ClientFieldsFallBack(globals: Config, host: PyValue, port: PyValue,
                             prefix: PyValue, sampleRate: PyValue)
    ensures ClientFields(globals, host, port, prefix, sampleRate).host
            == (if Truthy(host) then host else globals.host)
    ensures ClientFields(globals, host, port, prefix, sampleRate).port
            == (if Truthy(port) then port else globals.port)
    ensures ClientFields(globals, host, port, prefix, sampleRate).prefix
            == (if Truthy(prefix) then prefix else globals.prefix)
    ensures ClientFields(globals, host, port, prefix, sampleRate).sampleRate
            == (if Truthy(sampleRate) then sampleRate else globals.sampleRate)
    ensures ClientFields(globals, PyNone, PyInt(0), PyStr(""), PyFloat(0.0)) == globals
  {
  }

  /** A client built from another client's fields has the same fields. */
  lemma ClientFieldsStable(globals: Config, c: Config)
    ensures Truthy(c.host) && Truthy(c.port) && Truthy(c.prefix) && Truthy(c.sampleRate) ==>
            ClientFields(globals, c.host, c.port, c.prefix, c.sampleRate) == c
    ensures ClientFields(globals, globals.host, globals.port, globals.prefix, globals.sampleRate) == globals
  {
  }

  // ------------------------------------------------------------ swapped args

  /** Because the rate and the prefix are passed in swapped positions, the
      installed client's prefix is the rate global when that is truthy, and
      its rate is the prefix global when that is truthy. */
  lemma DefaultClientSwapsRateAndPrefix(globals: Config)
    ensures DefaultClientFields(globals).host == globals.host
    ensures DefaultClientFields(globals).port == globals.port
    ensures DefaultClientFields(globals).prefix == Or(globals.sampleRate, globals.prefix)
    ensures DefaultClientFields(globals).sampleRate == Or(globals.prefix, globals.sampleRate)
  {
  }

  /** The swap is harmless exactly when both globals are falsy or they are
      equal: only then does the installed client keep the globals' prefix
      and rate. */
  lemma SwapHarmlessIff(globals: Config)
    ensures DefaultClientFields(globals).prefix == globals.prefix
            && DefaultClientFields(globals).sampleRate == globals.sampleRate
            <==>
            (!Truthy(globals.sampleRate) && !Truthy(globals.prefix)) || globals.sampleRate == globals.prefix
  {
    var sr, bp := globals.sampleRate, globals.prefix;
    if Truthy(sr) && !Truthy(bp) {
      assert DefaultClientFields(globals).prefix == sr;
      assert sr != bp;
    } else if !Truthy(sr) && Truthy(bp) {
      assert DefaultClientFields(globals).sampleRate == bp;
      assert sr != bp;
    }
  }

  // --------------------------------------------------------- constructors

  /** The classes whose `__init__` run `super(...).__init__`. */
  datatype PyClass = StatsdClientClass | StatsdCounterClass | StatsdTimerClass

  /** `issubclass(sub, sup)` for the three classes. */
  predicate IsSubclass(sub: PyClass, sup: PyClass) {
    sub == sup || sup == StatsdClientClass
  }

  /** `super(named, self).__init__(host=host, port=port, sample_rate=sample_rate)`
      run from the constructor of an instance of `selfClass`: a `TypeError`
      unless the instance is of the named class, otherwise the fields of
      `StatsdClient.__init__` with the prefix left at its default. */
  function SuperInit(named: PyClass, selfClass: PyClass, globals: Config,
                     host: PyValue, port: PyValue, sampleRate: PyValue): Result<Config> {
    if IsSubclass(selfClass, named) then Ok(ClientFields(globals, host, port, PyNone, sampleRate))
    else Err(TypeError)
  }

  /** `StatsdCounter.__init__` as written names `StatsdTimer` in its `super`
      call; since a counter is not a timer, it raises on every input. */
  lemma CounterInitAsWrittenFails(globals: Config, host: PyValue, port: PyValue, sampleRate: PyValue)
    ensures SuperInit(StatsdTimerClass, StatsdCounterClass, globals, host, port, sampleRate)
            == Err(TypeError)
  {
  }

  /** Naming its own class, the counter's constructor succeeds and, like the
      timer's, drops its `prefix` argument: the prefix is the global one. */
  lemma CounterInitCorrected(globals: Config, host: PyValue, port: PyValue, sampleRate: PyValue)
    ensures SuperInit(StatsdCounterClass, StatsdCounterClass, globals, host, port, sampleRate)
            == Ok(ClientFields(globals, host, port, PyNone, sampleRate))
    ensures SuperInit(StatsdCounterClass, StatsdCounterClass, globals, host, port, sampleRate).value.prefix
            == globals.prefix
    ensures SuperInit(StatsdTimerClass, StatsdTimerClass, globals, host, port, sampleRate)
            == SuperInit(StatsdCounterClass, StatsdCounterClass, globals, host, port, sampleRate)
  {
  }
}
