/** The datagram the client builds for one metric event,
    `[prefix.]bucket:value|unit[|@rate]`, as a pure function of the client's
    prefix and default rate, the call's arguments and the random draw. */
module Wire {
  import opened Python
  import opened Format

  /** `sample_rate or self._sample_rate`: the per-call rate when truthy,
      otherwise the client's default. */
  function EffectiveRate(perCall: PyValue, clientRate: PyValue): PyValue {
    Or(perCall, clientRate)
  }

  /** Whether `|@rate` is attached: a truthy rate below one and a draw at or
      under it. */
  predicate Sampled(rate: PyValue, draw: real) {
    Truthy(rate) && BelowOne(rate) && AtMost(draw, rate)
  }

  /** The value, with the rate suffix attached when the draw admits it. */
  function WithRate(value: string, rate: PyValue, draw: real, render: real -> string): string {
    if Sampled(rate, draw) then value + "|@" + Str(rate, render) else value
  }

  /** `self._prefix + '.' + stat` when the prefix is truthy; a truthy prefix
      that is not a string cannot be added to one. */
  function Prefixed(prefix: PyValue, stat: string): Result<string> {
    if !Truthy(prefix) then Ok(stat)
    else if prefix.PyStr? then Ok(prefix.s + "." + stat)
    else Err(TypeError)
  }

  /** The datagram that `send(bucket, value, rate)` hands to the socket, or
      the exception it raises before sending. */
  function SendPayload(prefix: PyValue, clientRate: PyValue, bucket: string, value: string,
                       perCall: PyValue, draw: real, render: real -> string): Result<string> {
    var rate := EffectiveRate(perCall, clientRate);
    Prefixed(prefix, bucket + ":" + WithRate(value, rate, draw, render))
  }

  /** `'%d|c' % delta`. */
  function IncrValue(delta: int): string {
    Dec(delta) + "|c"
  }

  /** `'%d|c' % (-1 * delta)`. */
  function DecrValue(delta: int): string {
    Dec(-1 * delta) + "|c"
  }

  /** `'%d|ms' % ms`. */
  function TimingValue(ms: int): string {
    Dec(ms) + "|ms"
  }

  // ---------------------------------------------------------------- sampling

  /** With no truthy effective rate, or one that is not below one, the
      datagram is exactly `bucket:value`, prefixed when a prefix is set. */
  lemma UnsampledPayload(prefix: PyValue, clientRate: PyValue, bucket: string, value: string,
                         perCall: PyValue, draw: real, render: real -> string)
    requires !Truthy(EffectiveRate(perCall, clientRate)) || !BelowOne(EffectiveRate(perCall, clientRate))
    ensures !Truthy(prefix) ==>
      SendPayload(prefix, clientRate, bucket, value, perCall, draw, render) == Ok(bucket + ":" + value)
    ensures prefix.PyStr? && prefix.s != "" ==>
      SendPayload(prefix, clientRate, bucket, value, perCall, draw, render) == Ok(prefix.s + "." + bucket + ":" + value)
  {
    if prefix.PyStr? {
      assert prefix.s + "." + (bucket + ":" + value) == prefix.s + "." + bucket + ":" + value;
    }
  }

  /** With an effective float rate strictly between zero and one, the rate
      suffix follows the value if and only if the draw is at or under it. */
  lemma SampledPayload(prefix: PyValue, clientRate: PyValue, bucket: string, value: string,
                       perCall: PyValue, draw: real, render: real -> string, r: real)
    requires EffectiveRate(perCall, clientRate) == PyFloat(r) && 0.0 < r < 1.0
    requires !Truthy(prefix)
    ensures (SendPayload(prefix, clientRate, bucket, value, perCall, draw, render)
             == Ok(bucket + ":" + value + "|@" + render(r))) <==> draw <= r
    ensures (SendPayload(prefix, clientRate, bucket, value, perCall, draw, render)
             == Ok(bucket + ":" + value)) <==> r < draw
  {
    var p := SendPayload(prefix, clientRate, bucket, value, perCall, draw, render);
    var plain := bucket + ":" + value;
    var tagged := plain + "|@" + render(r);
    assert bucket + ":" + (value + "|@" + render(r)) == tagged;
    if draw <= r {
      assert p == Ok(tagged);
      assert |tagged| > |plain|;
    } else {
      assert p == Ok(plain);
      assert |tagged| > |plain|;
    }
  }

  /** Sampling never suppresses a send: whatever the rate and the draw, a
      datagram is produced unless the prefix is a truthy non-string. */
  lemma SendNeverSuppressed(prefix: PyValue, clientRate: PyValue, bucket: string, value: string,
                            perCall: PyValue, draw: real, render: real -> string)
    ensures SendPayload(prefix, clientRate, bucket, value, perCall, draw, render).Ok?
            <==> !Truthy(prefix) || prefix.PyStr?
    ensures SendPayload(prefix, clientRate, bucket, value, perCall, draw, render).Err? ==>
            SendPayload(prefix, clientRate, bucket, value, perCall, draw, render).error == TypeError
  {
  }

  /** A rate that is a string (as `init_statsd`'s swapped arguments can
      leave it) is never below `1.0` in Python 2, so it is never attached. */
  lemma StringRateNeverSampled(prefix: PyValue, bucket: string, value: string,
                               s: string, draw: real, render: real -> string)
    ensures SendPayload(prefix, PyStr(s), bucket, value, PyNone, draw, render)
            == Prefixed(prefix, bucket + ":" + value)
  {
  }

  // ------------------------------------------------------------- rate choice

  /** A truthy per-call rate overrides the client's default entirely; a
      falsy one (None, 0, 0.0, "") behaves exactly as if it were absent. */
  lemma PerCallRateChoice(prefix: PyValue, c1: PyValue, c2: PyValue, bucket: string, value: string,
                          perCall: PyValue, draw: real, render: real -> string)
    ensures Truthy(perCall) ==>
      SendPayload(prefix, c1, bucket, value, perCall, draw, render)
      == SendPayload(prefix, c2, bucket, value, perCall, draw, render)
    ensures !Truthy(perCall) ==>
      SendPayload(prefix, c1, bucket, value, perCall, draw, render)
      == SendPayload(prefix, c1, bucket, value, PyNone, draw, render)
  {
  }

  // ------------------------------------------------------------------ prefix

  /** A non-empty string prefix only prepends `prefix.` to the datagram the
      same call would produce without one. */
  lemma PrefixPrepends(p: string, clientRate: PyValue, bucket: string, value: string,
                       perCall: PyValue, draw: real, render: real -> string)
    requires p != ""
    ensures SendPayload(PyStr(p), clientRate, bucket, value, perCall, draw, render)
            == Ok(p + "." + SendPayload(PyNone, clientRate, bucket, value, perCall, draw, render).value)
    ensures SendPayload(PyNone, clientRate, bucket, value, perCall, draw, render).Ok?
    ensures var out := SendPayload(PyStr(p), clientRate, bucket, value, perCall, draw, render).value;
            |out| > |p| + |bucket| + 1 && out[..|p| + |bucket| + 2] == p + "." + bucket + ":"
  {
    var stat := bucket + ":" + WithRate(value, EffectiveRate(perCall, clientRate), draw, render);
    assert (p + "." + stat)[..|p| + |bucket| + 2] == p + "." + bucket + ":";
  }

  // ---------------------------------------------------------------- encoders

  /** `decr(b, d)` sends the same value as `incr(b, -d)`. */
  lemma DecrIsIncrOfNegation(delta: int)
    ensures DecrValue(delta) == IncrValue(-delta)
  {
    assert -1 * delta == -delta;
  }

  /** The counter value determines the delta it was built from. */
  lemma IncrValueInjective(a: int, b: int)
    ensures IncrValue(a) == IncrValue(b) <==> a == b
  {
    if IncrValue(a) == IncrValue(b) {
      assert Dec(a) == IncrValue(a)[..|IncrValue(a)| - 2];
      assert Dec(b) == IncrValue(b)[..|IncrValue(b)| - 2];
      DecInjective(a, b);
    }
  }

  /** The timing value determines the milliseconds it was built from, and no
      timing value equals a counter value. */
  lemma TimingValueInjective(a: int, b: int)
    ensures TimingValue(a) == TimingValue(b) <==> a == b
    ensures TimingValue(a) != IncrValue(b)
  {
    if TimingValue(a) == TimingValue(b) {
      assert Dec(a) == TimingValue(a)[..|TimingValue(a)| - 3];
      assert Dec(b) == TimingValue(b)[..|TimingValue(b)| - 3];
      DecInjective(a, b);
    }
    var t, c := TimingValue(a), IncrValue(b);
    assert t[|t| - 1] == 's' && c[|c| - 1] == 'c';
  }

  /** The values the tests expect: the default delta of 1 either way, a
      delta of 5 either way, and the timings of 100, 250, -250 and 510 ms. */
  lemma TestValues()
    ensures IncrValue(1) == "1|c" && IncrValue(5) == "5|c"
    ensures DecrValue(1) == "-1|c"
    ensures DecrValue(5) == "-5|c"
    ensures TimingValue(250) == "250|ms"
    ensures TimingValue(100) == "100|ms"
    ensures TimingValue(-250) == "-250|ms" && TimingValue(510) == "510|ms"
  {
    DecExamples();
  }
}
