/** The worker-pool metrics collector (pkg/translate/metrics.go): the
    worker counts `UpdateMetrics` derives from the pool and the label values
    the `Record*` methods use.  Prometheus itself is outside the model: a
    counter family is a map from label values to an integer count, and the
    histograms and floating-point gauges are not modelled. */
module Metrics {
  import opened Wrappers
  import opened Decimal
  import WorkerPool

  /** What `UpdateMetrics` derives from the worker list.  An uptime is the
      time since `lastUsed`, in the clock's unit. */
  datatype PoolGauges = PoolGauges(total: int, busy: int, idle: int, active: int, uptimes: map<int, int>)

  /** A worker whose process has not been waited for, which is how
      `UpdateMetrics` recognises a running process. */
  predicate Active(w: WorkerPool.Worker) {
    w.process.Running?
  }

  /** A worker whose uptime is reported. */
  predicate Reported(w: WorkerPool.Worker) {
    Active(w) && w.lastUsed.Some?
  }

  /** The counts after visiting `ws` in order; a later worker with the same
      id overwrites an earlier uptime. */
  function Stats(ws: seq<WorkerPool.Worker>, now: int): (g: PoolGauges)
    ensures g.total == |ws| && g.busy + g.idle == g.total
    ensures 0 <= g.active <= g.total
    ensures forall id :: id in g.uptimes ==> exists w :: w in ws && w.id == id && Reported(w)
  {
    if ws == [] then PoolGauges(0, 0, 0, 0, map[])
    else
      var g := Stats(ws[..|ws| - 1], now);
      var w := ws[|ws| - 1];
      PoolGauges(g.total + 1,
                 g.busy + (if w.busy then 1 else 0),
                 g.idle + (if w.busy then 0 else 1),
                 g.active + (if Active(w) then 1 else 0),
                 if Reported(w) then g.uptimes[w.id := now - w.lastUsed.value] else g.uptimes)
  }

  /** The counting loop of `UpdateMetrics`. */
  method PoolStats(workers: seq<WorkerPool.Worker>, now: int) returns (g: PoolGauges)
    ensures g == Stats(workers, now)
  {
    var busy, idle, active := 0, 0, 0;
    var uptimes: map<int, int> := map[];
    var i := 0;
    while i < |workers|
      invariant 0 <= i <= |workers|
      invariant Stats(workers[..i], now) == PoolGauges(i, busy, idle, active, uptimes)
    {
      assert workers[..i + 1][..i] == workers[..i];
      var w := workers[i];
      if w.busy {
        busy := busy + 1;
      } else {
        idle := idle + 1;
      }
      if w.process.Running? {
        active := active + 1;
        if w.lastUsed.Some? {
          uptimes := uptimes[w.id := now - w.lastUsed.value];
        }
      }
      i := i + 1;
    }
    assert workers[..|workers|] == workers;
    return PoolGauges(|workers|, busy, idle, active, uptimes);
  }

  /** Every worker is busy or idle and not both, so the two counts add up to
      the total; active workers are a part of the total. */
  lemma {:induction false} StatsCounts(ws: seq<WorkerPool.Worker>, now: int)
    ensures Stats(ws, now).total == |ws|
    ensures Stats(ws, now).busy + Stats(ws, now).idle == Stats(ws, now).total
    ensures 0 <= Stats(ws, now).busy && 0 <= Stats(ws, now).idle
    ensures 0 <= Stats(ws, now).active <= Stats(ws, now).total
    ensures (forall i :: 0 <= i < |ws| ==> ws[i].busy) ==> Stats(ws, now).idle == 0
  {
    if ws != [] {
      StatsCounts(ws[..|ws| - 1], now);
    }
  }

  /** Uptimes are recorded for exactly the ids of active workers with a
      last-use time, each as the time since one such worker's last use. */
  lemma {:induction false} StatsUptimes(ws: seq<WorkerPool.Worker>, now: int)
    ensures forall i :: 0 <= i < |ws| && Reported(ws[i]) ==> ws[i].id in Stats(ws, now).uptimes
    ensures forall id :: id in Stats(ws, now).uptimes ==>
      exists i :: 0 <= i < |ws| && ws[i].id == id && Reported(ws[i])
        && Stats(ws, now).uptimes[id] == now - ws[i].lastUsed.value
  {
    if ws != [] {
      var init := ws[..|ws| - 1];
      var w := ws[|ws| - 1];
      StatsUptimes(init, now);
      var up := Stats(ws, now).uptimes;
      forall i | 0 <= i < |ws| && Reported(ws[i])
        ensures ws[i].id in up
      {
        if i < |ws| - 1 {
          assert init[i] == ws[i];
        }
      }
      forall id | id in up
        ensures exists i :: 0 <= i < |ws| && ws[i].id == id && Reported(ws[i]) && up[id] == now - ws[i].lastUsed.value
      {
        if Reported(w) && id == w.id {
          assert ws[|ws| - 1] == w;
        } else {
          assert id in Stats(init, now).uptimes && up[id] == Stats(init, now).uptimes[id];
          var j :| 0 <= j < |init| && init[j].id == id && Reported(init[j])
            && Stats(init, now).uptimes[id] == now - init[j].lastUsed.value;
          assert ws[j] == init[j];
        }
      }
    }
  }

  // ---------------------------------------------------------------------
  // Labels and counters

  /** The status label of `RecordTranslationRequest` and
      `RecordSocketConnection`. */
  function StatusLabel(success: bool): (status: string)
    ensures status == "success" <==> success
    ensures !success ==> status == "error"
  {
    if success then "success" else "error"
  }

  /** The worker_id label: `fmt.Sprintf("%d", workerID)`. */
  function WorkerLabel(workerID: int): string {
    FormatInt(workerID)
  }

  /** The label identifies the worker: it reads back as the id, and two
      workers never share a label. */
  lemma WorkerLabelIdentifies(a: int, b: int)
    ensures Int64Min <= a <= Int64Max ==> ParseInt64(WorkerLabel(a)) == Some(a)
    ensures WorkerLabel(a) == WorkerLabel(b) ==> a == b
  {
    if Int64Min <= a <= Int64Max {
      FormatParseRoundTrip(a);
    }
    if WorkerLabel(a) == WorkerLabel(b) {
      FormatIntInjective(a, b);
    }
  }

  /** One time series: a metric name and its label values. */
  datatype Series = Series(name: string, labels: seq<string>)

  const RequestsTotal: string := "iskoces_translation_requests_total"
  const WorkerStartsTotal: string := "iskoces_worker_starts_total"
  const WorkerRestartsTotal: string := "iskoces_worker_restarts_total"
  const SocketConnectionsTotal: string := "iskoces_socket_connections_total"

  function RequestSeries(engine: string, success: bool): Series {
    Series(RequestsTotal, [engine, StatusLabel(success)])
  }

  function StartSeries(engine: string, workerID: int): Series {
    Series(WorkerStartsTotal, [engine, WorkerLabel(workerID)])
  }

  function RestartSeries(engine: string, workerID: int): Series {
    Series(WorkerRestartsTotal, [engine, WorkerLabel(workerID)])
  }

  function SocketSeries(engine: string, workerID: int, success: bool): Series {
    Series(SocketConnectionsTotal, [engine, WorkerLabel(workerID), StatusLabel(success)])
  }

  /** Distinct outcomes and distinct workers are counted in distinct series. */
  lemma SeriesSeparate(engine: string, a: int, b: int, s: bool, t: bool)
    ensures RequestSeries(engine, s) == RequestSeries(engine, t) <==> s == t
    ensures SocketSeries(engine, a, s) == SocketSeries(engine, b, t) <==> a == b && s == t
    ensures StartSeries(engine, a) == StartSeries(engine, b) <==> a == b
    ensures StartSeries(engine, a) != RestartSeries(engine, b)
  {
    if WorkerLabel(a) == WorkerLabel(b) {
      WorkerLabelIdentifies(a, b);
    }
    if RequestSeries(engine, s) == RequestSeries(engine, t) {
      assert StatusLabel(s) == RequestSeries(engine, s).labels[1];
    }
    if SocketSeries(engine, a, s) == SocketSeries(engine, b, t) {
      assert WorkerLabel(a) == SocketSeries(engine, a, s).labels[1];
      assert StatusLabel(s) == SocketSeries(engine, a, s).labels[2];
      WorkerLabelIdentifies(a, b);
    }
    if StartSeries(engine, a) == StartSeries(engine, b) {
      assert WorkerLabel(a) == StartSeries(engine, a).labels[1];
      WorkerLabelIdentifies(a, b);
    }
    assert WorkerStartsTotal[15] != WorkerRestartsTotal[15];
  }

  /** A counter's `Inc`. */
  function Inc(counters: map<Series, int>, s: Series): (r: map<Series, int>)
    ensures s in r && r[s] == (if s in counters then counters[s] else 0) + 1
    ensures forall t :: t != s ==> (t in r <==> t in counters)
    ensures forall t :: t in counters && t != s ==> r[t] == counters[t]
  {
    counters[s := (if s in counters then counters[s] else 0) + 1]
  }

  /** `MetricsCollector` with its counter families; the histograms and
      gauges it also feeds are not modelled. */
  class Collector {
    const engine: string
    var counters: map<Series, int>

    constructor(engine: string)
      ensures this.engine == engine && counters == map[]
    {
      this.engine := engine;
      counters := map[];
    }

    method RecordTranslationRequest(success: bool)
      modifies this
      ensures counters == Inc(old(counters), RequestSeries(engine, success))
    {
      var status := "success";
      if !success {
        status := "error";
      }
      counters := Inc(counters, Series(RequestsTotal, [engine, status]));
    }

    method RecordWorkerStart(workerID: int)
      modifies this
      ensures counters == Inc(old(counters), StartSeries(engine, workerID))
    {
      counters := Inc(counters, Series(WorkerStartsTotal, [engine, FormatInt(workerID)]));
    }

    method RecordWorkerRestart(workerID: int)
      modifies this
      ensures counters == Inc(old(counters), RestartSeries(engine, workerID))
    {
      counters := Inc(counters, Series(WorkerRestartsTotal, [engine, FormatInt(workerID)]));
    }

    method RecordSocketConnection(workerID: int, success: bool)
      modifies this
      ensures counters == Inc(old(counters), SocketSeries(engine, workerID, success))
    {
      var status := "success";
      if !success {
        status := "error";
      }
      counters := Inc(counters, Series(SocketConnectionsTotal, [engine, FormatInt(workerID), status]));
    }
  }
}
