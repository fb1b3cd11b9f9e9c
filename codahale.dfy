/** The host metrics library's side of the store: metric instruments, whose
    identity is object identity, the builders that create them, and the
    name-keyed registry they are registered in. Only the behaviour the
    metadata store relies on is modelled. */
module Codahale {
  import opened Results

  /** The kind of instrument a metric is. */
  datatype MetricKind = Counter | Gauge | Histogram | Meter | Timer

  /** A metric instrument; the store keys its side table by this object's identity. */
  class Metric {
    const kind: MetricKind

    constructor (kind: MetricKind)
      ensures this.kind == kind
    {
      this.kind := kind;
    }
  }

  /** MetricBuilder: makes new instruments of one kind and recognises them. */
  datatype MetricBuilder = MetricBuilder(kind: MetricKind) {

    /** isInstance: the candidate is an instrument of this builder's kind. */
    predicate IsInstance(m: Metric)
    {
      m.kind == kind
    }

    /** newMetric: a new instrument, never seen before, that this builder recognises. */
    method NewMetric() returns (m: Metric)
      ensures fresh(m) && IsInstance(m)
    {
      m := new Metric(kind);
    }
  }

  /** MetricRegistry: at most one metric per name. */
  class MetricRegistry {
    var metrics: map<string, Metric>

    constructor ()
      ensures metrics == map[]
    {
      metrics := map[];
    }

    /** getMetrics().get(name) */
    function Get(name: string): (r: Option<Metric>)
      reads this
      ensures r.Some? <==> name in metrics
      ensures r.Some? ==> r.value == metrics[name]
    {
      if name in metrics then Some(metrics[name]) else None
    }

    /** register(name, metric): adds the metric under a free name and returns
        it; a name already in use is refused and nothing changes. */
    method Register(name: string, m: Metric) returns (r: Result<Metric>)
      modifies this
      ensures name in old(metrics) ==> r == Err(AlreadyRegistered(name)) && metrics == old(metrics)
      ensures name !in old(metrics) ==> r == Ok(m) && metrics == old(metrics)[name := m]
    {
      if name in metrics {
        r := Err(AlreadyRegistered(name));
      } else {
        metrics := metrics[name := m];
        r := Ok(m);
      }
    }

    /** remove(name): drops whatever is registered under the name, reporting
        whether anything was. */
    method Remove(name: string) returns (removed: bool)
      modifies this
      ensures removed == (name in old(metrics))
      ensures metrics == old(metrics) - {name}
    {
      removed := name in metrics;
      metrics := metrics - {name};
    }
  }
}
