/** `StatsdClient`: a destination, a prefix and a default sample rate, and a
    socket modelled as the list of datagrams handed to it. */
module Client {
  import opened Python
  import opened Format
  import opened Wire
  import opened Settings

  /** One `sendto(stat, (host, port))`. */
  datatype Datagram = Datagram(payload: string, host: PyValue, port: PyValue)

  class StatsdClient {
    const host: PyValue
    const port: PyValue
    const sampleRate: PyValue
    const prefix: PyValue
    /** How the runtime writes a float with `%s`. */
    const render: real -> string
    /** Everything sent through this client's socket, oldest first. */
    var sent: seq<Datagram>

    function Fields(): Config {
      Config(host, port, sampleRate, prefix)
    }

    /** What `send(bucket, value, rate)` produces on this client. */
    function Payload(bucket: string, value: string, rate: PyValue, draw: real): Result<string> {
      SendPayload(prefix, sampleRate, bucket, value, rate, draw, render)
    }

    /** The datagrams a send with this outcome adds to the socket: one to
        this client's destination, or none when the send raised. */
    function Emitted(r: Result<string>): (ds: seq<Datagram>)
      ensures |ds| == (if r.Ok? then 1 else 0)
      ensures r.Ok? ==> ds[0].payload == r.value && ds[0].host == host && ds[0].port == port
    {
      if r.Ok? then [Datagram(r.value, host, port)] else []
    }

    /** `StatsdClient(host, port, prefix, sample_rate)` with the module
        globals `globals` in force. */
    constructor (globals: Config, render: real -> string, host: PyValue := PyNone, port: PyValue := PyNone,
                 prefix: PyValue := PyNone, sampleRate: PyValue := PyNone)
      ensures Fields() == ClientFields(globals, host, port, prefix, sampleRate)
      ensures this.render == render && sent == []
    {
      this.host := Or(host, globals.host);
      this.port := Or(port, globals.port);
      this.sampleRate := Or(sampleRate, globals.sampleRate);
      this.prefix := Or(prefix, globals.prefix);
      this.render := render;
      sent := [];
    }

    /** `send(bucket, value, sample_rate)`, with `draw` the value
        `random.random()` returns. */
    method Send(bucket: string, value: string, draw: real, rate: PyValue := PyNone) returns (outcome: Outcome)
      modifies this
      ensures sent == old(sent) + Emitted(Payload(bucket, value, rate, draw))
      ensures outcome == OutcomeOf(Payload(bucket, value, rate, draw))
    {
      var effective := Or(rate, sampleRate);
      var v := value;
      if Truthy(effective) && BelowOne(effective) {
        if AtMost(draw, effective) {
          v := v + "|@" + Str(effective, render);
        }
      }
      var stat := bucket + ":" + v;
      if Truthy(prefix) {
        if !prefix.PyStr? {
          return Raised(TypeError);
        }
        stat := prefix.s + "." + stat;
      }
      sent := sent + [Datagram(stat, host, port)];
      outcome := Returned;
    }

    /** `incr(bucket, delta, sample_rate)`. */
    method Incr(bucket: string, draw: real, delta: int := 1, rate: PyValue := PyNone) returns (outcome: Outcome)
      modifies this
      ensures sent == old(sent) + Emitted(Payload(bucket, IncrValue(delta), rate, draw))
      ensures outcome == OutcomeOf(Payload(bucket, IncrValue(delta), rate, draw))
    {
      outcome := Send(bucket, Dec(delta) + "|c", draw, rate);
    }

    /** `decr(bucket, delta, sample_rate)`. */
    method Decr(bucket: string, draw: real, delta: int := 1, rate: PyValue := PyNone) returns (outcome: Outcome)
      modifies this
      ensures sent == old(sent) + Emitted(Payload(bucket, DecrValue(delta), rate, draw))
      ensures outcome == OutcomeOf(Payload(bucket, DecrValue(delta), rate, draw))
    {
      outcome := Send(bucket, Dec(-1 * delta) + "|c", draw, rate);
    }

    /** `timing(bucket, ms, sample_rate)`. */
    method Timing(bucket: string, ms: int, draw: real, rate: PyValue := PyNone) returns (outcome: Outcome)
      modifies this
      ensures sent == old(sent) + Emitted(Payload(bucket, TimingValue(ms), rate, draw))
      ensures outcome == OutcomeOf(Payload(bucket, TimingValue(ms), rate, draw))
    {
      outcome := Send(bucket, Dec(ms) + "|ms", draw, rate);
    }
  }

  /** On a client whose prefix is falsy or a string, every call sends exactly
      one datagram to the client's destination, whatever the rate or draw. */
  lemma OneDatagramPerSend(c: StatsdClient, bucket: string, value: string, rate: PyValue, draw: real)
    requires !Truthy(c.prefix) || c.prefix.PyStr?
    ensures |c.Emitted(c.Payload(bucket, value, rate, draw))| == 1
    ensures c.Emitted(c.Payload(bucket, value, rate, draw))[0].host == c.host
    ensures c.Emitted(c.Payload(bucket, value, rate, draw))[0].port == c.port
  {
    SendNeverSuppressed(c.prefix, c.sampleRate, bucket, value, rate, draw, c.render);
  }

  /** The client test's expected datagrams with a falsy prefix and no
      default rate: `incr('buck.counter', 5)`, `decr('buck.counter', 5)` and
      `timing('buck.timing', 100)`; and, with prefix `main.bucket`, bucket
      `subname`. */
  lemma ClientTestPayloads(prefix: PyValue, draw: real, render: real -> string)
    requires !Truthy(prefix)
    ensures SendPayload(prefix, PyNone, "buck.counter", IncrValue(5), PyNone, draw, render) == Ok("buck.counter:5|c")
    ensures SendPayload(prefix, PyNone, "buck.counter", DecrValue(5), PyNone, draw, render) == Ok("buck.counter:-5|c")
    ensures SendPayload(prefix, PyNone, "buck.timing", TimingValue(100), PyNone, draw, render) == Ok("buck.timing:100|ms")
    ensures SendPayload(PyStr("main.bucket"), PyNone, "subname", "100|c", PyNone, draw, render)
            == Ok("main.bucket.subname:100|c")
  {
    TestValues();
    assert SendPayload(prefix, PyNone, "buck.counter", "5|c", PyNone, draw, render) == Ok("buck.counter:5|c") by {
      UnsampledPayload(prefix, PyNone, "buck.counter", "5|c", PyNone, draw, render);
      assert "buck.counter" + ":" + "5|c" == "buck.counter:5|c";
    }
    assert SendPayload(prefix, PyNone, "buck.counter", "-5|c", PyNone, draw, render) == Ok("buck.counter:-5|c") by {
      UnsampledPayload(prefix, PyNone, "buck.counter", "-5|c", PyNone, draw, render);
      assert "buck.counter" + ":" + "-5|c" == "buck.counter:-5|c";
    }
    assert SendPayload(prefix, PyNone, "buck.timing", "100|ms", PyNone, draw, render) == Ok("buck.timing:100|ms") by {
      UnsampledPayload(prefix, PyNone, "buck.timing", "100|ms", PyNone, draw, render);
      assert "buck.timing" + ":" + "100|ms" == "buck.timing:100|ms";
    }
    assert SendPayload(PyStr("main.bucket"), PyNone, "subname", "100|c", PyNone, draw, render)
           == Ok("main.bucket.subname:100|c") by {
      UnsampledPayload(PyStr("main.bucket"), PyNone, "subname", "100|c", PyNone, draw, render);
      assert "main.bucket" + "." + "subname" + ":" + "100|c" == "main.bucket.subname:100|c";
    }
  }
}
