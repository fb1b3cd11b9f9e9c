/** Properties of the store that span several calls, stated as client
    methods whose postconditions follow from the operations' contracts
    alone. */
module MetadataProperties {
  import opened Results
  import opened Naming
  import opened Codahale
  import opened MetricMetadata

  /** Tagging an untouched instrument: before, it has no tags and no type;
      after forMetric, withDimension and withMetricType (no register), the
      tag and the type are read back. */
  method TagsReadBack(store: MetricMetadataStore, h: Metric, key: string, value: string, t: MetricType)
    requires h !in store.collection
    modifies store
    ensures old(store.GetTags(h)) == map[] && old(store.GetMetricType(h)) == None
    ensures store.GetTags(h) == map[key := value]
    ensures store.GetMetricType(h) == Some(t)
  {
    var tagger := store.ForMetric(h);
    tagger.base.WithDimension(key, value);
    tagger.base.WithMetricType(Some(t));
  }

  /** Repeated forMetric calls bind to one shared Metadata and add at most
      one entry; no other instrument's entry changes. */
  method ForMetricTwice(store: MetricMetadataStore, h: Metric) returns (t1: Tagger, t2: Tagger)
    modifies store
    ensures h in store.collection && t1.base.metadata == t2.base.metadata == store.collection[h]
    ensures |store.collection| <= |old(store.collection)| + 1
    ensures forall m :: m in old(store.collection) ==> m in store.collection && store.collection[m] == old(store.collection)[m]
  {
    t1 := store.ForMetric(h);
    t2 := store.ForMetric(h);
  }

  /** A mutator on one tagger is visible through the store and through
      another tagger of the same instrument: both hold the same Metadata. */
  method SharedMetadata(store: MetricMetadataStore, h: Metric, name: string) returns (t1: Tagger, t2: Tagger)
    modifies store, store.collection.Values
    ensures t2.base.metadata.tags == store.GetTags(h) == old(store.GetTags(h))[METRIC := name]
  {
    t1 := store.ForMetric(h);
    t2 := store.ForMetric(h);
    t1.base.WithMetricName(name);
  }

  /** Two createOrGet calls on one builder tagger: if the first succeeds,
      the second returns the same instrument and registers nothing more, and
      the registry gained at most the composite name. */
  method CreateOrGetTwice(tagger: BuilderTagger, registry: MetricRegistry) returns (first: Result<Metric>, second: Result<Metric>)
    modifies registry, tagger.store
    ensures first.Ok? ==> second == first
    ensures first.Ok? ==>
      && CompositeName(tagger.base.metadata.tags).Ok?
      && registry.metrics.Keys == old(registry.metrics.Keys) + {CompositeName(tagger.base.metadata.tags).value}
    ensures first.Err? ==> second == first && registry.metrics == old(registry.metrics)
  {
    first := tagger.CreateOrGet(registry);
    ghost var afterFirst := registry.metrics;
    second := tagger.CreateOrGet(registry);
    assert first.Ok? ==> registry.metrics == afterFirst;
  }

  /** Two builder taggers over one store and one builder, with equal tags
      and equal types, converge on one instrument: once the first succeeds,
      the second finds it under the same name and validates it. */
  method EqualTaggersConverge(b1: BuilderTagger, b2: BuilderTagger, registry: MetricRegistry)
    returns (first: Result<Metric>, second: Result<Metric>)
    requires b1.store == b2.store && b1.builder == b2.builder
    requires b1.base.metadata.tags == b2.base.metadata.tags
    requires b1.base.metadata.metricType == b2.base.metadata.metricType
    modifies registry, b1.store
    ensures first.Ok? ==> second == first
  {
    first := b1.CreateOrGet(registry);
    second := b2.CreateOrGet(registry);
  }

  /** A builder tagger whose composite name is that of an instrument created
      by another tagger with different tags or a different type is refused
      with the different-tags error. */
  method MismatchRejected(b1: BuilderTagger, b2: BuilderTagger, registry: MetricRegistry)
    returns (first: Result<Metric>, second: Result<Metric>)
    requires b1.store == b2.store && b1.builder == b2.builder
    requires CompositeName(b1.base.metadata.tags) == CompositeName(b2.base.metadata.tags)
    requires b1.base.metadata.tags != b2.base.metadata.tags
          || b1.base.metadata.metricType != b2.base.metadata.metricType
    modifies registry, b1.store
    ensures first.Ok? ==>
      && CompositeName(b2.base.metadata.tags).Ok?
      && second == Err(DifferentTags(CompositeName(b2.base.metadata.tags).value))
  {
    first := b1.CreateOrGet(registry);
    second := b2.CreateOrGet(registry);
  }

  /** An example of the rejection: tags {sf_metric: x, a: p.q} and
      {sf_metric: x, a: p, b: q} are both named "p.q.x"; on an empty
      registry the first creates the instrument and the second is refused. */
  method DottedValueCollisionRejected(store: MetricMetadataStore, builder: MetricBuilder, registry: MetricRegistry)
    returns (first: Result<Metric>, second: Result<Metric>)
    requires registry.metrics == map[]
    modifies store, registry
    ensures first.Ok? && second == Err(DifferentTags("p.q.x"))
  {
    var b1 := store.ForBuilder(builder);
    b1.base.WithMetricName("x");
    b1.base.WithDimension("a", "p.q");
    var b2 := store.ForBuilder(builder);
    b2.base.WithMetricName("x");
    b2.base.WithDimension("a", "p");
    b2.base.WithDimension("b", "q");
    SeparatorInValueCollides();
    assert b1.base.metadata.tags == map[METRIC := "x", "a" := "p.q"];
    assert b2.base.metadata.tags == map[METRIC := "x", "a" := "p", "b" := "q"];
    first := b1.CreateOrGet(registry);
    second := b2.CreateOrGet(registry);
  }

  /** Removing twice: the second call finds no entry and returns false, and
      afterwards the instrument has no tags. */
  method RemoveTwice(store: MetricMetadataStore, h: Metric, registry: MetricRegistry) returns (first: Result<bool>, second: Result<bool>)
    modifies store, registry
    ensures first == Ok(false) <==> h !in old(store.collection)
    ensures second == Ok(false)
    ensures store.GetTags(h) == map[]
  {
    first := store.RemoveMetric(h, registry);
    second := store.RemoveMetric(h, registry);
  }
}
