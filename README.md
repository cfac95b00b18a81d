# python-statsd-client, modelled in Dafny

A model of `statsd.py`, a statsd client. It builds one UDP datagram per
metric event in the statsd line format `[prefix.]bucket:value|unit[|@rate]`.
The model covers five parts:

- `StatsdClient`, with its `send`, `incr`, `decr` and `timing`.
- `StatsdCounter`, whose `+` and `-` each send one counter datagram.
- `StatsdTimer`, with its `start` / `split` / `stop` marks.
- The four module globals, with `init_statsd`.
- The free functions `increment`, `decrement` and `timing`.

Layout, one Dafny module per concern:

- `python.dfy` (`Python`): the Python values a configuration field can hold
  (None, str, int, float). It defines their truthiness, the `x or y`
  fallback, Python 2 ordering against `1.0`, and the exceptions.
- `format.dfy` (`Format`): `%d` as `Dec`, with its inverse `ParseDec`.
  `%s` is `Str`; the decimal text of a float is an input function `render`.
- `wire.dfy` (`Wire`): the datagram `send` builds, as a pure function
  `SendPayload`, and the value encoders `IncrValue`, `DecrValue` and
  `TimingValue`.
- `settings.dfy` (`Settings`): the globals, how `init_statsd` merges a
  settings dictionary over them (`Merge`), and how a constructor falls back
  to them (`ClientFields`). It also covers the swapped positional arguments
  of `init_statsd` (`DefaultClientFields`) and the `super` calls.
- `client.dfy` (`Client`): class `StatsdClient`. Its socket is the field
  `sent`, the list of datagrams handed to `sendto`.
- `timer.dfy` (`Timer`) and `counter.dfy` (`Counter`): the two subclasses.
  In the source they inherit from `StatsdClient`. Here each owns its client
  part as the field `client`.
- `globals.dfy` (`Globals`): class `StatsdModule`. It holds the module
  globals, the default client `_statsd`, and the free functions.

The methods tie the new state to the pure functions. Every send appends
`Emitted(Payload(...))` to `sent`, and its outcome is `OutcomeOf(Payload(...))`.
The lemmas then state what those functions promise.

Behaviour of the source worth noting:

- Sampling attaches `|@rate` only when the draw is at or under the rate.
  The datagram is sent whatever the draw. A sampled-out event is therefore
  still sent, only without the suffix (`Wire.SendNeverSuppressed`).
- `split` sends the previous mark's time minus the current one. With a clock
  that does not go back, that value is never positive
  (`Timer.LapsNonPositive`). The docstring of `split` and the split test in
  `statsd_test.py:185-195` both expect the positive time since the previous
  mark; see "## Findings".
- `stop` does not end the session. `_start` and `_splits` stay as they are,
  so a second `stop` measures from the same start again.
- `init_statsd` passes its globals positionally as host, port, sample rate,
  prefix. They bind to the parameters host, port, prefix, sample_rate. The
  sample-rate global therefore becomes the client's prefix whenever it is
  truthy (`Settings.DefaultClientSwapsRateAndPrefix`). After the settings
  of the module test, every send through the default client raises
  `TypeError` (`Globals.InitWithTestSettings`).
- The timer and counter constructors do not pass `prefix` on. Their prefix
  is always the global one.
- Python 2 semantics are used throughout. The tests rely on byte strings
  and text strings being the same type: they compare payloads built from
  text buckets against `b'...'` literals (`statsd_test.py:103-104`). The
  model also takes the Python 2 ordering in which a string compares above
  every number; no test compares a string with a number, but it decides
  what a string sample rate does (`Wire.StringRateNeverSampled`).

## Model

| member | source | states |
|---|---|---|
| `Python.Or` | statsd.py:28-31 | `x or fallback` is truthy exactly when one of the two is, which is what lets a falsy constructor argument fall back to its global |
| `Format.NatText` | statsd.py:43 | the `%d` digits of a natural number are non-empty decimal digits, and they start with `0` only for zero |
| `Format.Dec` | statsd.py:37 | `%d` of an integer is non-empty and starts with `-` exactly when the integer is negative |
| `Format.DecAlphabet` | statsd.py:37-43 | `%d` text is digits after an optional leading minus, so it never contains the datagram separators `:`, `\|` or `@` |
| `Format.DecExamples` | statsd_test.py:45-140 | the `%d` texts of the deltas and durations the tests pass: 1, -1, 5, -5 (lines 45-63), 250 (line 76) and 100 (line 139); also -250 and 510, the lap and total of the split session `Timer.SplitSession` built from the sleeps at statsd_test.py:185-195 |
| `Format.DecRoundTrip` | statsd.py:43 | reading `%d` of any integer back gives that integer |
| `Format.ParseDecSound` | statsd.py:63 | every string that reads as an integer is exactly the `%d` text of that integer |
| `Format.DecInjective` | statsd.py:37 | two integers have the same `%d` text if and only if they are equal |
| `Wire.UnsampledPayload` | statsd.py:46-58 | with no truthy effective rate, or one not below 1, the datagram is exactly `bucket:value`, or `prefix.bucket:value` for a non-empty string prefix |
| `Wire.SampledPayload` | statsd.py:49-54 | with an effective float rate r where 0 < r < 1 and no prefix, the datagram is `bucket:value\|@<r>` if and only if draw <= r, and `bucket:value` if and only if draw > r |
| `Wire.SendNeverSuppressed` | statsd.py:51-58 | whatever the rate and the draw, a datagram is produced exactly when the prefix is falsy or a string; otherwise the send raises `TypeError` |
| `Wire.StringRateNeverSampled` | statsd.py:51 | a string rate is never below `1.0` under Python 2 ordering, so no suffix is attached |
| `Wire.PerCallRateChoice` | statsd.py:49 | a truthy per-call rate makes the client's default irrelevant; a falsy one (None, 0, 0.0, "") acts as if no rate were given |
| `Wire.PrefixPrepends` | statsd.py:55-56 | a non-empty string prefix adds `prefix.` in front of the datagram the same call would produce without a prefix, and the result starts with `prefix.bucket:` |
| `Wire.DecrIsIncrOfNegation` | statsd.py:34-44 | `decr(b, d)` sends the same value as `incr(b, -d)` |
| `Wire.IncrValueInjective` | statsd.py:40-44 | the counter value `d\|c` determines d: two values are equal if and only if their deltas are |
| `Wire.TimingValueInjective` | statsd.py:60-64 | the timing value `ms\|ms` determines ms, and a timing value never equals a counter value |
| `Wire.TestValues` | statsd_test.py:45-140 | the default delta 1 encodes as `1\|c` and `-1\|c`, a delta of 5 as `5\|c` and `-5\|c` (lines 45-63), and timings of 250 ms (line 76) and 100 ms (line 139) as `250\|ms` and `100\|ms`; the split session's lap of -250 ms and total of 510 ms as `-250\|ms` and `510\|ms` |
| `Settings.MergeOverridesPresentKeys` | statsd.py:138-144 | after `init_statsd(settings)`, each global whose key is present has the dictionary's value, and every other global keeps its prior value |
| `Settings.MergeIgnoresOtherKeys` | statsd.py:138-144 | keys other than the four recognised ones have no effect on the globals |
| `Settings.MergeTwice` | statsd.py:129-148 | two successive `init_statsd` calls leave the globals that one call with the second dictionary laid over the first would leave |
| `Settings.MergeIdempotent` | statsd.py:129-148 | repeating `init_statsd` with the same dictionary leaves the globals as the first call left them |
| `Settings.ClientFieldsFallBack` | statsd.py:27-31 | each constructor field keeps a truthy argument and takes its global for a falsy one (None, 0, "", 0.0) |
| `Settings.ClientFieldsStable` | statsd.py:27-31 | rebuilding a client from truthy fields, or from the globals themselves, gives the same fields |
| `Settings.DefaultClientSwapsRateAndPrefix` | statsd.py:146-147 | the client installed by `init_statsd` has prefix `rate or prefix` and sample rate `prefix or rate` (the globals), and the globals' host and port |
| `Settings.SwapHarmlessIff` | statsd.py:146-147 | the installed client has the globals' prefix and rate if and only if both are falsy or they are equal |
| `Settings.CounterInitAsWrittenFails` | statsd.py:70-74 | `super(StatsdTimer, self).__init__` on a counter raises `TypeError` for every input |
| `Settings.CounterInitCorrected` | statsd.py:88-92 | with its own class named in `super`, the counter's constructor succeeds, takes the global prefix and builds what the timer's constructor builds |
| `Client.StatsdClient.constructor` | statsd.py:27-32 | the four fields are the arguments with falsy ones replaced by the globals; the socket starts empty |
| `Client.StatsdClient.Emitted` | statsd.py:58 | a successful send adds exactly one datagram, holding the payload, to the client's host and port; a raising send adds none |
| `Client.StatsdClient.Send` | statsd.py:46-58 | the socket gains exactly the datagram `SendPayload` builds, or nothing when it raises, and the outcome says which |
| `Client.StatsdClient.Incr` | statsd.py:40-44 | sends `bucket` with value `%d\|c` of delta (default 1) |
| `Client.StatsdClient.Decr` | statsd.py:34-38 | sends `bucket` with value `%d\|c` of -1 times delta (default 1) |
| `Client.StatsdClient.Timing` | statsd.py:60-64 | sends `bucket` with value `%d\|ms` of ms |
| `Client.OneDatagramPerSend` | statsd.py:51-58 | on a client whose prefix is falsy or a string, every send emits exactly one datagram to the client's host and port, whatever the rate and the draw |
| `Client.ClientTestPayloads` | statsd_test.py:90-140 | with a falsy prefix and no rate, the client sends `buck.counter:5\|c`, `buck.counter:-5\|c` and `buck.timing:100\|ms`; with prefix `main.bucket`, bucket `subname` goes out as `main.bucket.subname:100\|c` |
| `Timer.Laps` | statsd.py:113-119 | the laps of a mark sequence are one fewer than the marks |
| `Timer.LapAt` | statsd.py:117-119 | each lap the code sends is the previous mark's time minus the next one's |
| `Timer.LapsSum` | statsd.py:113-119 | the laps sent by the splits telescope to the first mark's time minus the last one's |
| `Timer.LapsAppend` | statsd.py:117-119 | a split adds exactly the lap it sends and leaves the earlier laps unchanged |
| `Timer.LapsNonPositive` | statsd.py:119 | with a clock that never goes back, no lap sent by `split` is positive |
| `Timer.TotalAfterSplits` | statsd.py:121-126 | `stop` measures from the original start: its value is the time since the last mark minus the sum of the laps |
| `Timer.ElapsedLaps` | statsd.py:113-115 | the corrected laps, as `split`'s docstring describes them, are one per mark after the first |
| `Timer.ElapsedLapAt` | statsd.py:113-119 | each corrected lap is the time since the previous mark, the negation of the lap the code sends |
| `Timer.ElapsedLapsNonNegative` | statsd.py:113-115 | with a clock that never goes back, no corrected lap is negative |
| `Timer.ElapsedLapsSum` | statsd.py:113-115 | the corrected laps telescope to the last mark's time minus the first one's |
| `Timer.TotalIsElapsedLapsPlusRest` | statsd.py:121-126 | with corrected laps, `stop`'s total is the sum of the laps plus the time since the last mark |
| `Timer.StatsdTimer.constructor` | statsd.py:88-92 | the timer's client gets the arguments with fallback, except that `prefix` is dropped and the global one is used |
| `Timer.StatsdTimer.Start` | statsd.py:107-111 | `_start` becomes now and `_splits` becomes exactly `[(key, now)]`, discarding any earlier session; `_stop` is unchanged |
| `Timer.StatsdTimer.Split` | statsd.py:113-119 | before `start`: `AttributeError` and nothing changes; after: `_splits` grows by exactly `(key, now)`, and the previous mark's time minus now is sent on `bucket.key` |
| `Timer.StatsdTimer.Stop` | statsd.py:121-126 | `_stop` becomes now in every case; `_splits` and `_start` are unchanged; after `start`, now minus the start time is sent on `bucket.key` (default `total`); before it, `AttributeError` and nothing is sent |
| `Timer.SplitTestPayloads` | statsd_test.py:185-195 | on a client with no prefix and no rate, the split test's lap of -250 ms and total of 510 ms go out as `timeit.lap:-250\|ms` and `timeit.total:510\|ms` |
| `Timer.SplitSession` | statsd_test.py:185-195 | start, split `lap` 250 ms later, stop 510 ms after start: the timer sends `timeit.lap:-250\|ms` and then `timeit.total:510\|ms`, and its marks are the start and the lap |
| `Counter.StatsdCounter.constructor` | statsd.py:70-74 | the corrected constructor: the counter's client fields are what the `super` call naming `StatsdCounter` builds, with the global prefix |
| `Counter.StatsdCounter.Add` | statsd.py:76-78 | `counter + n` sends exactly `incr(bucket, n)` and returns the same counter |
| `Counter.StatsdCounter.Sub` | statsd.py:80-82 | `counter - n` sends exactly `decr(bucket, n)` and returns the same counter |
| `Counter.CounterSession` | statsd_test.py:156-168 | `+= 1`, `+= 5`, `-= 1`, `-= 5` send `counted:1\|c`, `counted:5\|c`, `counted:-1\|c`, `counted:-5\|c`; no running total is kept |
| `Counter.CounterTestPayload` | statsd_test.py:156-168 | with no prefix and no rate, `incr('counted', d)` and `decr('counted', -d)` both send `counted:` followed by `%d\|c` of d |
| `Globals.StatsdModule.constructor` | statsd.py:7-10 | loading the module sets the globals to localhost, 8125, None, None and installs a default client built from them |
| `Globals.StatsdModule.InitStatsd` | statsd.py:129-148 | the globals become `Merge(old globals, settings)`, and a fresh client built from them with the swapped arguments is installed and returned |
| `Globals.StatsdModule.Increment` | statsd.py:17-18 | `increment` sends through the current default client exactly what its `incr` sends |
| `Globals.StatsdModule.Decrement` | statsd.py:13-14 | `decrement` sends through the current default client exactly what its `decr` sends |
| `Globals.StatsdModule.Timing` | statsd.py:21-22 | `timing` sends through the current default client exactly what its `timing` sends, with no per-call rate |
| `Globals.InitWithTestSettings` | statsd.py:138-147 | the module test's settings set all four globals to those values, but the installed client gets the float 0.99 as its prefix and "testing" as its rate, so each of its sends raises `TypeError` |
| `Globals.DefaultClientTestPayloads` | statsd_test.py:45-81 | the default client at load time sends `counted:-1\|c`, `counted:5\|c` and `timed:250\|ms` |

## Left out

- Socket creation and `sendto`, which are UDP I/O. The socket is the list `sent` of datagrams with their destinations. Transport errors are not modelled. Nor is the `TypeError` that `sendto` raises for a host that is not a string or a port that is not an integer (for example after `init_statsd({'STATSD_PORT': '9999'})`). `Client.StatsdClient.Send` then still records the datagram and returns normally.
- `random.random()` and `time.time()`, which are nondeterministic. They are the parameters `draw` and `now`.
- Timer values: times are integer milliseconds. The source takes `%d` of a float difference, which truncates toward zero. The model does not capture that truncation.
- `%s` of a float: the decimal text of a float is the input function `render`. No float arithmetic is modelled, because the client only compares rates.
- Counter deltas: they are integers. `%d` truncation of a float delta is not modelled.
- `StatsdTimer.__call__`, `__enter__` and `__exit__`: the decorator and context-manager protocol. They are not modelled, and `__exit__` also has the wrong signature for use in a `with` block.
- Inherited members: the counter and the timer inherit every client method. Here they reach them through their `client` field.
- Python 3 behaviour: mixing byte strings and text strings. The model follows Python 2. There, the tests' string buckets format into byte payloads, and comparing a string rate with `1.0` does not raise.
- `init_statsd` with a truthy settings value that is not a dictionary. `settings=None` is modelled as the empty dictionary, since both are falsy and behave the same.
- Exceptions: a raised exception is the outcome `Raised(...)`. When `incr` raises inside `counter + n`, Python never reaches `return self`. The model still returns the counter, with the `Raised` outcome.
- Test-only names that `statsd.py` does not define: `gauge`, `_send`, `StatsdTimer.wrap` and a free `timing` with a sample rate.
- `setup.py`, which is packaging.

## Findings

| source | as written | input that shows it | evidently intended | confidence | as-written member | corrected member |
|---|---|---|---|---|---|---|
| statsd.py:72 | `StatsdCounter.__init__` names `StatsdTimer` in its `super` call | any construction, such as the counter test's `StatsdCounter('counted', 'localhost', 8125, prefix='', sample_rate=None)` (statsd_test.py:157), raises `TypeError`, since a counter is not a timer | `super` naming `StatsdCounter`, so that the counter is built as the timer is | high (not executed) | `Settings.CounterInitAsWrittenFails` | `Counter.StatsdCounter.constructor` |
| statsd.py:117-119 | `split` sends `_splits[-2][1] - _splits[-1][1]`, the previous mark's time minus the current one | start at t, split 250 ms later: the lap sent is `timeit.lap:-250\|ms` (`Timer.SplitSession`), whereas statsd_test.py:190 expects `timeit.lap:2...`; with any clock that does not go back no lap is positive | the time since the previous mark, `_splits[-1][1] - _splits[-2][1]`, as the docstring at statsd.py:114-115 says | high (not executed) | `Timer.LapsNonPositive` | `Timer.ElapsedLaps` |

`Timer.StatsdTimer.Split` keeps the sign the code uses, so the socket holds
what the source sends. The corrected laps, with their non-negativity and
telescoping, are stated beside it in `Timer.ElapsedLaps` and its lemmas.
