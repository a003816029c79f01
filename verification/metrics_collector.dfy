/** `MetricsCollector`: request metrics kept in a ring buffer, an active
    request gauge, a running total, and the integer counts of the summary.
    The asyncio lock makes every operation atomic, so each is a pure
    function from one collector state to the next. */
module MetricsCollector {
  import opened Wrappers
  import opened RingBuffer

  /** `RequestMetrics`; the duration and timestamp are left out. */
  datatype RequestMetric = RequestMetric(
    endpoint: string,
    httpMethod: string,
    statusCode: int,
    requestSize: int,
    responseSize: int,
    model: string,
    error: Option<string>)

  /** `RequestMetrics(endpoint, method)` with the dataclass defaults. */
  function NewMetric(endpoint: string, httpMethod: string): (m: RequestMetric)
    ensures m.endpoint == endpoint && m.httpMethod == httpMethod
    ensures m.statusCode == 0 && m.requestSize == 0 && m.responseSize == 0
    ensures m.model == "" && m.error == None
  {
    RequestMetric(endpoint, httpMethod, 0, 0, 0, "", None)
  }

  /** A metric recorded with the dataclass defaults has status 0: the
      summary counts it as failed, although it carries no error. */
  lemma DefaultMetricCountsAsFailed(endpoint: string, httpMethod: string, maxMetrics: int)
    requires 1 <= maxMetrics
    ensures var m := NewMetric(endpoint, httpMethod);
      var s := GetSummary(RecordRequest(NewCollector(maxMetrics), m));
      && !HasError(m) && EndpointKey(m) == httpMethod + " " + endpoint
      && s.Stats? && s.total == 1 && s.successful == 0 && s.failed == 1
  {
    var m := NewMetric(endpoint, httpMethod);
    var c := RecordRequest(NewCollector(maxMetrics), m);
    assert c.metrics.GetAll() == [m] by {
      assert [] + [m] == [m];
      assert LastN([m], maxMetrics) == [m];
    }
    assert [m][..0] == [];
  }

  /** The collector's state. `total` counts every recorded request, while
      the ring keeps only the last `maxMetrics` of them. */
  datatype Collector = Collector(maxMetrics: int, metrics: Ring<RequestMetric>, active: int, total: int) {

    /** What the operations below maintain: the ring holds min(total,
        capacity) metrics and reports full exactly when something was
        overwritten; the gauge is never negative. */
    predicate Valid() {
      && metrics.Valid() && metrics.maxSize == maxMetrics
      && 0 <= active && 0 <= total
      && metrics.Size() == (if total <= maxMetrics then total else maxMetrics)
      && (metrics.IsFull() <==> total > maxMetrics)
    }
  }

  /** `MetricsCollector()`'s default capacity, which the proxy uses:
      `NewCollector(DefaultMaxMetrics)` is the call that leaves
      `max_metrics` out. */
  const DefaultMaxMetrics := 1000

  /** `MetricsCollector(max_metrics)`. */
  function NewCollector(maxMetrics: int): (c: Collector)
    requires 1 <= maxMetrics
    ensures c.Valid() && c.maxMetrics == maxMetrics
    ensures c.active == 0 && c.total == 0 && c.metrics.GetAll() == []
  {
    Collector(maxMetrics, NewRing(maxMetrics), 0, 0)
  }

  /** `record_request`: the metric joins the ring as its newest entry
      (dropping the oldest at capacity) and the total grows by exactly one. */
  function RecordRequest(c: Collector, m: RequestMetric): (r: Collector)
    requires c.Valid()
    ensures r.Valid() && r.maxMetrics == c.maxMetrics
    ensures r.total == c.total + 1 && r.active == c.active
    ensures r.metrics.GetAll() == LastN(c.metrics.GetAll() + [m], c.maxMetrics)
  {
    AppendStep(c.metrics, m);
    c.(metrics := c.metrics.Append(m), total := c.total + 1)
  }

  /** `increment_active_requests`. */
  function IncrementActive(c: Collector): (r: Collector)
    requires c.Valid()
    ensures r.Valid() && r.active == c.active + 1
    ensures r.metrics == c.metrics && r.total == c.total && r.maxMetrics == c.maxMetrics
  {
    c.(active := c.active + 1)
  }

  /** `decrement_active_requests`: one less, but never below zero. */
  function DecrementActive(c: Collector): (r: Collector)
    requires c.Valid()
    ensures r.Valid()
    ensures c.active > 0 ==> r.active == c.active - 1
    ensures c.active == 0 ==> r.active == 0
    ensures r.metrics == c.metrics && r.total == c.total && r.maxMetrics == c.maxMetrics
  {
    c.(active := if c.active - 1 < 0 then 0 else c.active - 1)
  }

  /** `reset`: an empty ring of the same capacity and both counters zero. */
  function Reset(c: Collector): (r: Collector)
    requires c.Valid()
    ensures r.Valid() && r.maxMetrics == c.maxMetrics
    ensures r.active == 0 && r.total == 0 && r.metrics.GetAll() == [] && !r.metrics.IsFull()
  {
    c.(metrics := NewRing(c.maxMetrics), active := 0, total := 0)
  }

  /** Recording the metrics one after another. */
  function RecordAll(c: Collector, ms: seq<RequestMetric>): (r: Collector)
    requires c.Valid()
    ensures r.Valid() && r.maxMetrics == c.maxMetrics && r.active == c.active
    decreases |ms|
  {
    if |ms| == 0 then c else RecordAll(RecordRequest(c, ms[0]), ms[1..])
  }

  /** Recording metrics appends them to the ring one by one and counts
      each in the total. */
  lemma {:induction false} RecordAllAppends(c: Collector, ms: seq<RequestMetric>)
    requires c.Valid()
    ensures RecordAll(c, ms).metrics == AppendAll(c.metrics, ms)
    ensures RecordAll(c, ms).total == c.total + |ms|
    decreases |ms|
  {
    if |ms| != 0 {
      RecordAllAppends(RecordRequest(c, ms[0]), ms[1..]);
    }
  }

  /** Recording from any state keeps the last `max_metrics` metrics,
      oldest first, and counts every request in the total. */
  lemma RecordAllHistory(c: Collector, ms: seq<RequestMetric>)
    requires c.Valid()
    ensures RecordAll(c, ms).metrics.GetAll() == LastN(c.metrics.GetAll() + ms, c.maxMetrics)
    ensures RecordAll(c, ms).total == c.total + |ms|
  {
    RecordAllAppends(c, ms);
    AppendAllContents(c.metrics, ms);
  }

  // ---------------------------------------------------------------------
  // The integer part of `get_summary`.

  /** A 2xx status counts as successful. */
  predicate IsSuccess(m: RequestMetric) {
    200 <= m.statusCode < 300
  }

  /** `metric.error` is truthy: present and non-empty. */
  predicate HasError(m: RequestMetric) {
    m.error.Some? && m.error.value != ""
  }

  /** The per-endpoint grouping key `"<method> <endpoint>"`. */
  function EndpointKey(m: RequestMetric): string {
    m.httpMethod + " " + m.endpoint
  }

  /** The number of successful metrics. */
  function CountSuccess(ms: seq<RequestMetric>): (n: nat)
    ensures n <= |ms|
    ensures n == |ms| <==> forall i | 0 <= i < |ms| :: IsSuccess(ms[i])
    ensures n == 0 <==> forall i | 0 <= i < |ms| :: !IsSuccess(ms[i])
  {
    if |ms| == 0 then 0
    else CountSuccess(ms[..|ms| - 1]) + (if IsSuccess(ms[|ms| - 1]) then 1 else 0)
  }

  /** Counting successes distributes over concatenation: the count for a
      history is the count for its first part plus that for the rest. */
  lemma {:induction false} CountSuccessAppend(a: seq<RequestMetric>, b: seq<RequestMetric>)
    ensures CountSuccess(a + b) == CountSuccess(a) + CountSuccess(b)
    decreases |b|
  {
    if |b| == 0 {
      assert a + b == a;
    } else {
      var init, last := b[..|b| - 1], b[|b| - 1];
      assert (a + b)[..|a + b| - 1] == a + init;
      assert (a + b)[|a + b| - 1] == last;
      CountSuccessAppend(a, init);
    }
  }

  /** One entry of the `endpoints` map; the duration average and error
      rate are left out. */
  datatype EndpointStats = EndpointStats(key: string, count: nat, errors: nat, models: set<string>)

  /** The zero entry `get_summary` creates for a key it has not seen. */
  function EmptyStats(key: string): EndpointStats {
    EndpointStats(key, 0, 0, {})
  }

  /** One metric's contribution to its key's entry. */
  function Bump(s: EndpointStats, m: RequestMetric): (r: EndpointStats)
    ensures r.key == s.key && r.count == s.count + 1
    ensures r.errors == s.errors + (if HasError(m) then 1 else 0)
    ensures r.models == s.models + (if m.model != "" then {m.model} else {})
  {
    s.(count := s.count + 1,
       errors := if HasError(m) then s.errors + 1 else s.errors,
       models := if m.model != "" then s.models + {m.model} else s.models)
  }

  /** The entry stored under `key`, if any (the first one). */
  function Lookup(gs: seq<EndpointStats>, key: string): (r: Option<EndpointStats>)
    ensures r.Some? ==> r.value.key == key
    ensures r.None? <==> forall i | 0 <= i < |gs| :: gs[i].key != key
  {
    if |gs| == 0 then None
    else if gs[0].key == key then Some(gs[0])
    else Lookup(gs[1..], key)
  }

  /** The keys of the entries. */
  function Keys(gs: seq<EndpointStats>): (k: set<string>)
    ensures forall i | 0 <= i < |gs| :: gs[i].key in k
    ensures forall key | key in k :: exists i | 0 <= i < |gs| :: gs[i].key == key
  {
    if |gs| == 0 then {} else {gs[0].key} + Keys(gs[1..])
  }

  /** No key is stored twice. */
  predicate Distinct(gs: seq<EndpointStats>) {
    |gs| == 0 || (gs[0].key !in Keys(gs[1..]) && Distinct(gs[1..]))
  }

  /** The sum of the entries' counts. */
  function SumCounts(gs: seq<EndpointStats>): nat {
    if |gs| == 0 then 0 else gs[0].count + SumCounts(gs[1..])
  }

  /** Adding one metric to the grouping: an entry is created at the end,
      after the existing keys, only when its key is new, and the counts grow
      by one in total. */
  function AddTo(gs: seq<EndpointStats>, m: RequestMetric): (r: seq<EndpointStats>)
    ensures Keys(r) == Keys(gs) + {EndpointKey(m)}
    ensures SumCounts(r) == SumCounts(gs) + 1
    ensures |r| == if EndpointKey(m) in Keys(gs) then |gs| else |gs| + 1
    ensures forall i | 0 <= i < |gs| :: r[i].key == gs[i].key
  {
    if |gs| == 0 then [Bump(EmptyStats(EndpointKey(m)), m)]
    else if gs[0].key == EndpointKey(m) then
      var r := [Bump(gs[0], m)] + gs[1..];
      assert r[1..] == gs[1..];
      r
    else
      var rest := AddTo(gs[1..], m);
      var r := [gs[0]] + rest;
      assert r[1..] == rest;
      r
  }

  /** Adding a metric bumps its own key's entry (starting from the zero
      entry when the key is new) and leaves every other key's entry alone. */
  lemma {:induction false} AddToLookup(gs: seq<EndpointStats>, m: RequestMetric, k: string)
    ensures Lookup(AddTo(gs, m), k) ==
      if k == EndpointKey(m) then Some(Bump(Lookup(gs, k).GetOr(EmptyStats(k)), m))
      else Lookup(gs, k)
  {
    if |gs| != 0 && gs[0].key != EndpointKey(m) {
      AddToLookup(gs[1..], m, k);
      assert ([gs[0]] + AddTo(gs[1..], m))[1..] == AddTo(gs[1..], m);
    } else if |gs| != 0 {
      assert ([Bump(gs[0], m)] + gs[1..])[1..] == gs[1..];
    }
  }

  /** Adding a metric never stores a key twice. */
  lemma {:induction false} AddToDistinct(gs: seq<EndpointStats>, m: RequestMetric)
    requires Distinct(gs)
    ensures Distinct(AddTo(gs, m))
  {
    if |gs| != 0 && gs[0].key != EndpointKey(m) {
      AddToDistinct(gs[1..], m);
      assert ([gs[0]] + AddTo(gs[1..], m))[1..] == AddTo(gs[1..], m);
    } else if |gs| != 0 {
      assert ([Bump(gs[0], m)] + gs[1..])[1..] == gs[1..];
    }
  }

  /** The `endpoints` grouping of `get_summary`: the metrics folded in
      order, so keys appear in order of first appearance. */
  function Group(ms: seq<RequestMetric>): (r: seq<EndpointStats>)
    ensures SumCounts(r) == |ms|
    ensures |r| <= |ms|
  {
    if |ms| == 0 then [] else AddTo(Group(ms[..|ms| - 1]), ms[|ms| - 1])
  }

  /** Reference definitions: the metrics under one key, in order ... */
  function Matching(ms: seq<RequestMetric>, key: string): (r: seq<RequestMetric>)
    ensures |r| <= |ms|
    ensures forall i | 0 <= i < |r| :: EndpointKey(r[i]) == key
  {
    if |ms| == 0 then []
    else Matching(ms[..|ms| - 1], key) + (if EndpointKey(ms[|ms| - 1]) == key then [ms[|ms| - 1]] else [])
  }

  /** ... how many of them carry an error ... */
  function CountErrors(ms: seq<RequestMetric>): (n: nat)
    ensures n <= |ms|
  {
    if |ms| == 0 then 0
    else CountErrors(ms[..|ms| - 1]) + (if HasError(ms[|ms| - 1]) then 1 else 0)
  }

  /** ... and the non-empty model names among them. */
  function ModelsOf(ms: seq<RequestMetric>): set<string> {
    set i | 0 <= i < |ms| && ms[i].model != "" :: ms[i].model
  }

  /** The entry a group of metrics should produce. */
  function StatsOf(key: string, ms: seq<RequestMetric>): EndpointStats {
    EndpointStats(key, |ms|, CountErrors(ms), ModelsOf(ms))
  }

  /** Bumping the entry of a group is the entry of the group grown by one. */
  lemma StatsStep(key: string, ms: seq<RequestMetric>, m: RequestMetric)
    ensures Bump(StatsOf(key, ms), m) == StatsOf(key, ms + [m])
  {
    assert (ms + [m])[..|ms|] == ms;
    var extra := if m.model != "" then {m.model} else {};
    forall name | name in ModelsOf(ms + [m])
      ensures name in ModelsOf(ms) + extra
    {
      var i :| 0 <= i < |ms + [m]| && (ms + [m])[i].model != "" && (ms + [m])[i].model == name;
      if i < |ms| { assert ms[i].model == name; }
    }
    forall name | name in ModelsOf(ms) + extra
      ensures name in ModelsOf(ms + [m])
    {
      if name in ModelsOf(ms) {
        var i :| 0 <= i < |ms| && ms[i].model != "" && ms[i].model == name;
        assert (ms + [m])[i] == ms[i];
      } else {
        assert (ms + [m])[|ms|] == m;
      }
    }
  }

  /** Each key's entry holds the count, the error count and the model set
      of exactly the metrics under that key, and a key has an entry exactly
      when some metric carries it. */
  lemma {:induction false} GroupLookup(ms: seq<RequestMetric>, key: string)
    ensures Lookup(Group(ms), key) ==
      if |Matching(ms, key)| == 0 then None else Some(StatsOf(key, Matching(ms, key)))
  {
    if |ms| != 0 {
      var p, x := ms[..|ms| - 1], ms[|ms| - 1];
      var mp := Matching(p, key);
      assert Group(ms) == AddTo(Group(p), x);
      GroupLookup(p, key);
      AddToLookup(Group(p), x, key);
      if EndpointKey(x) == key {
        assert Matching(ms, key) == mp + [x];
        StatsStep(key, mp, x);
        assert Lookup(Group(p), key).GetOr(EmptyStats(key)) == StatsOf(key, mp) by {
          if |mp| == 0 { assert mp == []; }
        }
      } else {
        assert Matching(ms, key) == mp;
      }
    }
  }

  /** The grouping never stores a key twice. */
  lemma {:induction false} GroupDistinct(ms: seq<RequestMetric>)
    ensures Distinct(Group(ms))
  {
    if |ms| != 0 {
      GroupDistinct(ms[..|ms| - 1]);
      AddToDistinct(Group(ms[..|ms| - 1]), ms[|ms| - 1]);
    }
  }

  /** The integer part of `get_summary`'s result. */
  datatype Summary =
    | NoMetrics(active: int, globalTotal: int)
    | Stats(
        total: nat,
        successful: nat,
        failed: int,
        active: int,
        globalTotal: int,
        endpoints: seq<EndpointStats>,
        bufferSize: nat,
        bufferFull: bool,
        maxBufferSize: int)

  /** `get_summary`. The "no metrics" message appears exactly when nothing
      was ever recorded; otherwise the buffered total is the smaller of the
      global total and the capacity, it splits into successful and failed
      requests, and the per-endpoint counts add up to it with no key twice. */
  function GetSummary(c: Collector): (r: Summary)
    requires c.Valid()
    ensures r.NoMetrics? <==> c.total == 0
    ensures r.NoMetrics? ==> r.active == c.active && r.globalTotal == c.total
    ensures r.Stats? ==>
      && r.total == (if c.total <= c.maxMetrics then c.total else c.maxMetrics)
      && r.successful == CountSuccess(c.metrics.GetAll())
      && r.successful + r.failed == r.total && 0 <= r.failed
      && r.active == c.active && r.globalTotal == c.total && r.total <= r.globalTotal
      && SumCounts(r.endpoints) == r.total && Distinct(r.endpoints)
      && r.bufferSize == r.total && (r.bufferFull <==> c.total > c.maxMetrics)
      && r.maxBufferSize == c.maxMetrics
  {
    var ms := c.metrics.GetAll();
    if |ms| == 0 then NoMetrics(c.active, c.total)
    else
      var successful := CountSuccess(ms);
      GroupDistinct(ms);
      Stats(|ms|, successful, |ms| - successful, c.active, c.total, Group(ms),
            c.metrics.Size(), c.metrics.IsFull(), c.maxMetrics)
  }

  /** Each endpoint entry of the summary describes exactly the buffered
      metrics under its key. */
  lemma SummaryEndpoint(c: Collector, key: string)
    requires c.Valid() && GetSummary(c).Stats?
    ensures Lookup(GetSummary(c).endpoints, key) ==
      var ms := Matching(c.metrics.GetAll(), key);
      if |ms| == 0 then None else Some(StatsOf(key, ms))
  {
    GroupLookup(c.metrics.GetAll(), key);
  }

  /** The proxy's collector, built with the default capacity, keeps the
      last thousand recorded metrics in order while counting them all. */
  lemma DefaultCollectorKeepsLastThousand(ms: seq<RequestMetric>)
    ensures var c := RecordAll(NewCollector(DefaultMaxMetrics), ms);
      && c.metrics.GetAll() == LastN(ms, 1000)
      && c.total == |ms|
  {
    var c0 := NewCollector(DefaultMaxMetrics);
    RecordAllHistory(c0, ms);
    assert c0.metrics.GetAll() + ms == ms;
  }
}
