/** `StatsdTimer`: a client bound to one bucket that records marks
    (`start`, `split`) and sends the time between them. A timer is a client
    in the source; here it owns the client part as `client`. Times are
    integer milliseconds handed in by the caller. */
module Timer {
  import opened Python
  import opened Wire
  import opened Settings
  import opened Client

  /** The timing values `split` sends for a sequence of marks: for each mark
      after the first, the previous mark's time minus its own. */
  function Laps(marks: seq<(string, int)>): (laps: seq<int>)
    ensures |laps| == if |marks| == 0 then 0 else |marks| - 1
    decreases |marks|
  {
    if |marks| < 2 then [] else Laps(marks[..|marks| - 1]) + [marks[|marks| - 2].1 - marks[|marks| - 1].1]
  }

  /** Each lap is the previous mark's time minus the next one's. */
  lemma {:induction false} LapAt(marks: seq<(string, int)>, k: nat)
    requires k + 1 < |marks|
    ensures Laps(marks)[k] == marks[k].1 - marks[k + 1].1
    decreases |marks|
  {
    if k + 2 < |marks| {
      var init := marks[..|marks| - 1];
      LapAt(init, k);
    }
  }

  function Sum(xs: seq<int>): int
    decreases |xs|
  {
    if xs == [] then 0 else Sum(xs[..|xs| - 1]) + xs[|xs| - 1]
  }

  /** The laps telescope: their sum is the first mark minus the last, the
      negation of the time elapsed since `start`. */
  lemma {:induction false} LapsSum(marks: seq<(string, int)>)
    requires |marks| >= 1
    ensures Sum(Laps(marks)) == marks[0].1 - marks[|marks| - 1].1
    decreases |marks|
  {
    if |marks| >= 2 {
      var init := marks[..|marks| - 1];
      LapsSum(init);
      assert Laps(marks)[..|Laps(marks)| - 1] == Laps(init);
    }
  }

  /** A split adds exactly one lap, the one it sends, and leaves the earlier
      laps unchanged. */
  lemma {:induction false} LapsAppend(marks: seq<(string, int)>, mark: (string, int))
    requires |marks| >= 1
    ensures Laps(marks + [mark]) == Laps(marks) + [marks[|marks| - 1].1 - mark.1]
  {
    var s := marks + [mark];
    assert s[..|s| - 1] == marks;
    assert s[|s| - 2] == marks[|marks| - 1] && s[|s| - 1] == mark;
  }

  /** What `stop` sends after any number of splits: the elapsed time since
      the start, which is the time since the last mark minus the laps sent. */
  lemma {:induction false} TotalAfterSplits(marks: seq<(string, int)>, now: int)
    requires |marks| >= 1
    ensures now - marks[0].1 == (now - marks[|marks| - 1].1) - Sum(Laps(marks))
  {
    LapsSum(marks);
  }

  /** With a clock that never goes back, no lap is positive. */
  lemma {:induction false} LapsNonPositive(marks: seq<(string, int)>)
    requires forall k :: 0 <= k < |marks| - 1 ==> marks[k].1 <= marks[k + 1].1
    ensures forall k :: 0 <= k < |Laps(marks)| ==> Laps(marks)[k] <= 0
  {
    forall k | 0 <= k < |Laps(marks)| ensures Laps(marks)[k] <= 0 {
      LapAt(marks, k);
    }
  }

  /** The laps `split`'s own description promises ("time since start() or
      last call to split()"): for each mark after the first, its time minus
      the previous mark's. The code sends the negation of these (`Laps`). */
  function ElapsedLaps(marks: seq<(string, int)>): (laps: seq<int>)
    ensures |laps| == |Laps(marks)|
    decreases |marks|
  {
    if |marks| < 2 then [] else ElapsedLaps(marks[..|marks| - 1]) + [marks[|marks| - 1].1 - marks[|marks| - 2].1]
  }

  /** Each intended lap is the time since the previous mark, the negation of
      the lap the code sends. */
  lemma {:induction false} ElapsedLapAt(marks: seq<(string, int)>, k: nat)
    requires k + 1 < |marks|
    ensures ElapsedLaps(marks)[k] == marks[k + 1].1 - marks[k].1
    ensures ElapsedLaps(marks)[k] == -Laps(marks)[k]
    decreases |marks|
  {
    LapAt(marks, k);
    if k + 2 < |marks| {
      var init := marks[..|marks| - 1];
      ElapsedLapAt(init, k);
    }
  }

  /** With a clock that never goes back, no intended lap is negative. */
  lemma {:induction false} ElapsedLapsNonNegative(marks: seq<(string, int)>)
    requires forall k :: 0 <= k < |marks| - 1 ==> marks[k].1 <= marks[k + 1].1
    ensures forall k :: 0 <= k < |ElapsedLaps(marks)| ==> ElapsedLaps(marks)[k] >= 0
  {
    forall k | 0 <= k < |ElapsedLaps(marks)| ensures ElapsedLaps(marks)[k] >= 0 {
      ElapsedLapAt(marks, k);
    }
  }

  /** The intended laps telescope to the time elapsed from the first mark to
      the last. */
  lemma {:induction false} ElapsedLapsSum(marks: seq<(string, int)>)
    requires |marks| >= 1
    ensures Sum(ElapsedLaps(marks)) == marks[|marks| - 1].1 - marks[0].1
    decreases |marks|
  {
    if |marks| >= 2 {
      var init := marks[..|marks| - 1];
      ElapsedLapsSum(init);
      assert ElapsedLaps(marks)[..|ElapsedLaps(marks)| - 1] == ElapsedLaps(init);
    }
  }

  /** With the intended laps, `stop`'s total is the sum of the laps plus the
      time since the last mark. */
  lemma {:induction false} TotalIsElapsedLapsPlusRest(marks: seq<(string, int)>, now: int)
    requires |marks| >= 1
    ensures now - marks[0].1 == Sum(ElapsedLaps(marks)) + (now - marks[|marks| - 1].1)
  {
    ElapsedLapsSum(marks);
  }

  class StatsdTimer {
    const client: StatsdClient
    const bucket: string
    /** `_start`: absent until `start` first runs. */
    var start: Option<int>
    /** `_stop`: absent until `stop` first runs. */
    var stop: Option<int>
    /** `_splits`; empty while `_start` is absent. */
    var splits: seq<(string, int)>

    /** Once started, the marks begin with the start time. */
    ghost predicate Valid()
      reads this
    {
      if start.None? then splits == []
      else |splits| >= 1 && splits[0].1 == start.value
    }

    /** `StatsdTimer(bucket, host, port, prefix, sample_rate)`: the `prefix`
        argument is not passed on, so the prefix is the global one. */
    constructor (bucket: string, globals: Config, render: real -> string, host: PyValue := PyNone,
                 port: PyValue := PyNone, prefix: PyValue := PyNone, sampleRate: PyValue := PyNone)
      ensures Valid() && fresh(client)
      ensures client.Fields() == ClientFields(globals, host, port, PyNone, sampleRate)
      ensures client.render == render && client.sent == []
      ensures this.bucket == bucket && start == None && stop == None
    {
      this.bucket := bucket;
      client := new StatsdClient(globals, render, host, port, PyNone, sampleRate);
      start, stop, splits := None, None, [];
    }

    /** `start(bucket_key)` at time `now`: a new session whose only mark is
        the start, whatever was recorded before. */
    method Start(now: int, key: string := "start")
      modifies this
      ensures Valid()
      ensures start == Some(now) && splits == [(key, now)]
      ensures stop == old(stop)
    {
      start := Some(now);
      splits := [(key, now)];
    }

    /** `split(bucket_key)` at time `now`: appends the mark and sends the
        previous mark's time minus `now` under `bucket.key`. Before any
        `start` there are no marks to append to (`AttributeError`). */
    method Split(key: string, now: int, draw: real) returns (outcome: Outcome)
      requires Valid()
      modifies this, client
      ensures Valid()
      ensures start == old(start) && stop == old(stop)
      ensures old(start).None? ==>
        outcome == Raised(AttributeError) && splits == old(splits) && client.sent == old(client.sent)
      ensures old(start).Some? ==>
        && splits == old(splits) + [(key, now)]
        && var lap := old(splits)[|old(splits)| - 1].1 - now;
           && client.sent == old(client.sent) + client.Emitted(client.Payload(bucket + "." + key, TimingValue(lap), PyNone, draw))
           && outcome == OutcomeOf(client.Payload(bucket + "." + key, TimingValue(lap), PyNone, draw))
    {
      if start.None? {
        return Raised(AttributeError);
      }
      var previous := splits[|splits| - 1];
      splits := splits + [(key, now)];
      assert splits[0] == old(splits)[0];
      outcome := client.Timing(bucket + "." + key, previous.1 - now, draw);
    }

    /** `stop(bucket_key)` at time `now`: records `_stop` and sends `now`
        minus the start time under `bucket.key`, whatever splits were taken.
        Without a start, `_stop` is still set before the `AttributeError`. */
    method Stop(now: int, draw: real, key: string := "total") returns (outcome: Outcome)
      requires Valid()
      modifies this, client
      ensures Valid()
      ensures stop == Some(now) && start == old(start) && splits == old(splits)
      ensures old(start).None? ==> outcome == Raised(AttributeError) && client.sent == old(client.sent)
      ensures old(start).Some? ==>
        && client.sent == old(client.sent) + client.Emitted(client.Payload(bucket + "." + key, TimingValue(now - old(start).value), PyNone, draw))
        && outcome == OutcomeOf(client.Payload(bucket + "." + key, TimingValue(now - old(start).value), PyNone, draw))
    {
      stop := Some(now);
      if start.None? {
        return Raised(AttributeError);
      }
      outcome := client.Timing(bucket + "." + key, now - start.value, draw);
    }
  }

  /** The datagrams of the split test's timer (no prefix, no rate). */
  lemma SplitTestPayloads(c: StatsdClient, draw: real)
    requires c.prefix == PyNone && c.sampleRate == PyNone
    ensures c.Payload("timeit" + "." + "lap", TimingValue(-250), PyNone, draw) == Ok("timeit.lap:-250|ms")
    ensures c.Payload("timeit" + "." + "total", TimingValue(510), PyNone, draw) == Ok("timeit.total:510|ms")
  {
    TestValues();
    assert "timeit" + "." + "lap" == "timeit.lap" && "timeit" + "." + "total" == "timeit.total";
    UnsampledPayload(PyNone, PyNone, "timeit.lap", "-250|ms", PyNone, draw, c.render);
    UnsampledPayload(PyNone, PyNone, "timeit.total", "510|ms", PyNone, draw, c.render);
    assert "timeit.lap" + ":" + "-250|ms" == "timeit.lap:-250|ms";
    assert "timeit.total" + ":" + "510|ms" == "timeit.total:510|ms";
  }

  /** The split test's session: start at `t`, split `lap` at `t + 250`, stop
      at `t + 510`, on a timer with no prefix and no rate. The lap goes out
      as -250 ms, the total as 510 ms, and the marks are the start and the
      lap. */
  method SplitSession(t: int, draw: real) returns (payloads: seq<string>, marks: seq<(string, int)>)
    ensures marks == [("start", t), ("lap", t + 250)]
    ensures payloads == ["timeit.lap:-250|ms", "timeit.total:510|ms"]
  {
    var timer := new StatsdTimer("timeit", Defaults, x => "", PyStr("localhost"), PyInt(8125), PyStr(""), PyNone);
    var c := timer.client;
    assert c.prefix == PyNone && c.sampleRate == PyNone;
    timer.Start(t);
    var o1 := timer.Split("lap", t + 250, draw);
    assert t - (t + 250) == -250;
    var lap := c.sent[0].payload;
    assert lap == "timeit.lap:-250|ms" by {
      SplitTestPayloads(c, draw);
    }
    var o2 := timer.Stop(t + 510, draw);
    var total := c.sent[1].payload;
    assert total == "timeit.total:510|ms" by {
      SplitTestPayloads(c, draw);
    }
    marks := timer.splits;
    payloads := [lap, total];
  }
}
