/** The `statsd` module's own state: the four configuration globals, the
    default client `_statsd` that `init_statsd` installs, and the free
    functions `increment`, `decrement` and `timing` that delegate to it. */
module Globals {
  import opened Python
  import opened Wire
  import opened Settings
  import opened Client

  class StatsdModule {
    /** `STATSD_HOST`, `STATSD_PORT`, `STATSD_SAMPLE_RATE`, `STATSD_BUCKET_PREFIX`. */
    var host: PyValue
    var port: PyValue
    var sampleRate: PyValue
    var prefix: PyValue
    /** `_statsd`. */
    var statsd: StatsdClient
    /** How the runtime writes a float with `%s`. */
    const render: real -> string

    function Config(): Config
      reads this
    {
      Settings.Config(host, port, sampleRate, prefix)
    }

    /** Loading the module: the built-in defaults, then `init_statsd()`. */
    constructor (render: real -> string)
      ensures Config() == Defaults && this.render == render
      ensures fresh(statsd) && statsd.Fields() == DefaultClientFields(Defaults)
      ensures statsd.render == render && statsd.sent == []
    {
      host, port, sampleRate, prefix := PyStr("localhost"), PyInt(8125), PyNone, PyNone;
      this.render := render;
      var g := Settings.Config(PyStr("localhost"), PyInt(8125), PyNone, PyNone);
      statsd := new StatsdClient(g, render, g.host, g.port, g.sampleRate, g.prefix);
    }

    /** `init_statsd(settings)`: merges the recognised keys over the globals
        and installs (and returns) a new default client built from them,
        passed in the order host, port, sample rate, prefix. */
    method InitStatsd(settings: map<string, PyValue>) returns (client: StatsdClient)
      modifies this
      ensures Config() == Merge(old(Config()), settings)
      ensures fresh(client) && statsd == client
      ensures client.Fields() == DefaultClientFields(Config())
      ensures client.render == render && client.sent == []
    {
      if settings != map[] {
        host := if HostKey in settings then settings[HostKey] else host;
        port := if PortKey in settings then settings[PortKey] else port;
        sampleRate := if SampleRateKey in settings then settings[SampleRateKey] else sampleRate;
        prefix := if PrefixKey in settings then settings[PrefixKey] else prefix;
      }
      statsd := new StatsdClient(Config(), render, host, port, sampleRate, prefix);
      client := statsd;
    }

    /** `increment(bucket, delta, sample_rate)` on the default client. */
    method Increment(bucket: string, draw: real, delta: int := 1, rate: PyValue := PyNone) returns (outcome: Outcome)
      modifies statsd
      ensures statsd.sent == old(statsd.sent) + statsd.Emitted(statsd.Payload(bucket, IncrValue(delta), rate, draw))
      ensures outcome == OutcomeOf(statsd.Payload(bucket, IncrValue(delta), rate, draw))
    {
      outcome := statsd.Incr(bucket, draw, delta, rate);
    }

    /** `decrement(bucket, delta, sample_rate)` on the default client. */
    method Decrement(bucket: string, draw: real, delta: int := 1, rate: PyValue := PyNone) returns (outcome: Outcome)
      modifies statsd
      ensures statsd.sent == old(statsd.sent) + statsd.Emitted(statsd.Payload(bucket, DecrValue(delta), rate, draw))
      ensures outcome == OutcomeOf(statsd.Payload(bucket, DecrValue(delta), rate, draw))
    {
      outcome := statsd.Decr(bucket, draw, delta, rate);
    }

    /** `timing(bucket, ms)` on the default client; it takes no rate. */
    method Timing(bucket: string, ms: int, draw: real) returns (outcome: Outcome)
      modifies statsd
      ensures statsd.sent == old(statsd.sent) + statsd.Emitted(statsd.Payload(bucket, TimingValue(ms), PyNone, draw))
      ensures outcome == OutcomeOf(statsd.Payload(bucket, TimingValue(ms), PyNone, draw))
    {
      outcome := statsd.Timing(bucket, ms, draw);
    }
  }

  /** The settings of the module test. */
  function TestSettings(): map<string, PyValue> {
    map[HostKey := PyStr("127.0.0.1"), PortKey := PyInt(9999),
        SampleRateKey := PyFloat(0.99), PrefixKey := PyStr("testing")]
  }

  /** `init_statsd` with the test's settings sets all four globals to them;
      but the swapped arguments give the installed client the float 0.99 as
      its prefix, so every send through it raises `TypeError`. */
  lemma InitWithTestSettings(globals: Config, bucket: string, value: string, rate: PyValue,
                             draw: real, render: real -> string)
    ensures Merge(globals, TestSettings())
            == Config(PyStr("127.0.0.1"), PyInt(9999), PyFloat(0.99), PyStr("testing"))
    ensures DefaultClientFields(Merge(globals, TestSettings())).prefix == PyFloat(0.99)
    ensures DefaultClientFields(Merge(globals, TestSettings())).sampleRate == PyStr("testing")
    ensures var c := DefaultClientFields(Merge(globals, TestSettings()));
            SendPayload(c.prefix, c.sampleRate, bucket, value, rate, draw, render) == Err(TypeError)
  {
    var s := TestSettings();
    assert HostKey in s && s[HostKey] == PyStr("127.0.0.1");
    assert PortKey in s && s[PortKey] == PyInt(9999);
    assert SampleRateKey in s && s[SampleRateKey] == PyFloat(0.99);
    assert PrefixKey in s && s[PrefixKey] == PyStr("testing");
  }

  /** The module test's expectations on the default client at load time:
      `decrement('counted')`, `increment('counted', 5)` and
      `timing('timed', 250)`. */
  lemma DefaultClientTestPayloads(draw: real, render: real -> string)
    ensures var c := DefaultClientFields(Defaults);
      && SendPayload(c.prefix, c.sampleRate, "counted", DecrValue(1), PyNone, draw, render) == Ok("counted:-1|c")
      && SendPayload(c.prefix, c.sampleRate, "counted", IncrValue(5), PyNone, draw, render) == Ok("counted:5|c")
      && SendPayload(c.prefix, c.sampleRate, "timed", TimingValue(250), PyNone, draw, render) == Ok("timed:250|ms")
  {
    TestValues();
    UnsampledPayload(PyNone, PyNone, "counted", "-1|c", PyNone, draw, render);
    UnsampledPayload(PyNone, PyNone, "counted", "5|c", PyNone, draw, render);
    UnsampledPayload(PyNone, PyNone, "timed", "250|ms", PyNone, draw, render);
    assert "counted" + ":" + "-1|c" == "counted:-1|c" && "counted" + ":" + "5|c" == "counted:5|c";
    assert "timed" + ":" + "250|ms" == "timed:250|ms";
  }
}
