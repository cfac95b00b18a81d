/** `StatsdCounter`: a client bound to one bucket whose `+` and `-` each send
    one counter datagram. A counter is a client in the source; here it owns
    the client part as `client`. It keeps no count of its own. */
module Counter {
  import opened Python
  import opened Format
  import opened Wire
  import opened Settings
  import opened Client

  class StatsdCounter {
    const client: StatsdClient
    const bucket: string

    /** `StatsdCounter(bucket, host, port, prefix, sample_rate)` with its
        `super` call naming its own class (as written it names
        `StatsdTimer` and always raises; see `CounterInitAsWrittenFails`).
        As in the timer, the `prefix` argument is not passed on. */
    constructor (bucket: string, globals: Config, render: real -> string, host: PyValue := PyNone,
                 port: PyValue := PyNone, prefix: PyValue := PyNone, sampleRate: PyValue := PyNone)
      ensures fresh(client) && this.bucket == bucket
      ensures SuperInit(StatsdCounterClass, StatsdCounterClass, globals, host, port, sampleRate)
              == Ok(client.Fields())
      ensures client.render == render && client.sent == []
    {
      this.bucket := bucket;
      client := new StatsdClient(globals, render, host, port, PyNone, sampleRate);
    }

    /** `counter + num`: sends `incr(bucket, num)` and returns the counter
        itself. */
    method Add(num: int, draw: real) returns (r: StatsdCounter, outcome: Outcome)
      modifies client
      ensures r == this
      ensures client.sent == old(client.sent) + client.Emitted(client.Payload(bucket, IncrValue(num), PyNone, draw))
      ensures outcome == OutcomeOf(client.Payload(bucket, IncrValue(num), PyNone, draw))
    {
      outcome := client.Incr(bucket, draw, num);
      r := this;
    }

    /** `counter - num`: sends `decr(bucket, num)` and returns the counter
        itself. */
    method Sub(num: int, draw: real) returns (r: StatsdCounter, outcome: Outcome)
      modifies client
      ensures r == this
      ensures client.sent == old(client.sent) + client.Emitted(client.Payload(bucket, DecrValue(num), PyNone, draw))
      ensures outcome == OutcomeOf(client.Payload(bucket, DecrValue(num), PyNone, draw))
    {
      outcome := client.Decr(bucket, draw, num);
      r := this;
    }
  }

  /** The counter test: `counter += 1; counter += 5` sends `counted:1|c`
      then `counted:5|c`, and `-=` sends `counted:-1|c` then `counted:-5|c`;
      nothing is accumulated. */
  method CounterSession(draw: real) returns (added: seq<string>, subtracted: seq<string>)
    ensures added == ["counted:1|c", "counted:5|c"]
    ensures subtracted == ["counted:-1|c", "counted:-5|c"]
  {
    var counter := new StatsdCounter("counted", Defaults, x => "", PyStr("localhost"), PyInt(8125), PyStr(""), PyNone);
    var c := counter.client;
    assert c.prefix == PyNone && c.sampleRate == PyNone;
    var o;
    counter, o := counter.Add(1, draw);
    var a1 := c.sent[0].payload;
    assert a1 == "counted:1|c" by { CounterTestPayload(draw, c.render, 1, "1|c"); }
    counter, o := counter.Add(5, draw);
    var a5 := c.sent[1].payload;
    assert a5 == "counted:5|c" by { CounterTestPayload(draw, c.render, 5, "5|c"); }
    counter, o := counter.Sub(1, draw);
    var s1 := c.sent[2].payload;
    assert s1 == "counted:-1|c" by { CounterTestPayload(draw, c.render, -1, "-1|c"); }
    counter, o := counter.Sub(5, draw);
    var s5 := c.sent[3].payload;
    assert s5 == "counted:-5|c" by { CounterTestPayload(draw, c.render, -5, "-5|c"); }
    added := [a1, a5];
    subtracted := [s1, s5];
  }

  /** The counter test's datagrams: bucket `counted`, no prefix, no rate. */
  lemma CounterTestPayload(draw: real, render: real -> string, delta: int, text: string)
    requires Format.Dec(delta) + "|c" == text
    ensures SendPayload(PyNone, PyNone, "counted", IncrValue(delta), PyNone, draw, render) == Ok("counted:" + text)
    ensures SendPayload(PyNone, PyNone, "counted", DecrValue(-delta), PyNone, draw, render) == Ok("counted:" + text)
  {
    DecrIsIncrOfNegation(-delta);
    UnsampledPayload(PyNone, PyNone, "counted", text, PyNone, draw, render);
    assert "counted" + ":" + text == "counted:" + text;
  }
}
