/** The metric metadata store (MetricMetadataImpl): a side table from metric
    instruments to their tags and type, the taggers that fill it in, and the
    finalize calls that name and register the instruments. The store's
    locking is modelled as atomic steps: every method runs without
    interleaving. */
module MetricMetadata {
  import opened Results
  import opened KeyOrder
  import opened Naming
  import opened Codahale

  /** SignalFx's metric type (SignalFxProtocolBuffers.MetricType). */
  datatype MetricType = Gauge | Counter | Enum | CumulativeCounter

  /** Metadata: one instrument's tags and optional type, shared between the
      store and the taggers that mutate it in place. */
  class Metadata {
    var tags: map<string, string>
    var metricType: Option<MetricType>

    constructor ()
      ensures tags == map[] && metricType == None
    {
      tags := map[];
      metricType := None;
    }

    /** getCodahaleName: collects the tags other than `sf_metric` into a
        sorted map (visiting the tags in whatever order the tag map yields
        them), then appends each value and a '.' in key order, then the base
        name. */
    method GetCodahaleName() returns (r: Result<string>)
      ensures r == CompositeName(tags)
    {
      if METRIC !in tags {
        return Err(MissingMetricName);
      }
      var existingMetricName := tags[METRIC];
      // the sorted map of the other tags: its entries and its key order
      var extraParameters: map<string, string> := map[];
      var order: seq<string> := [];
      var pending := tags.Keys;
      while pending != {}
        invariant pending <= tags.Keys
        invariant extraParameters.Keys == tags.Keys - pending - {METRIC}
        invariant forall k :: k in extraParameters ==> extraParameters[k] == tags[k]
        invariant Ascending(order) && Elems(order) == extraParameters.Keys
        decreases pending
      {
        var key :| key in pending;
        if key != METRIC {
          extraParameters := extraParameters[key := tags[key]];
          order := Insert(order, key);
        }
        pending := pending - {key};
      }
      var compositeName := "";
      for i := 0 to |order|
        invariant compositeName == Join(order[..i], extraParameters)
      {
        assert order[..i + 1][..i] == order[..i];
        compositeName := compositeName + extraParameters[order[i]] + ".";
      }
      assert order[..|order|] == order;
      JoinAgree(order, extraParameters, tags);
      NameFromAscendingListing(tags, order);
      return Ok(compositeName + existingMetricName);
    }

    /** equals: same metric type and equal tag maps (an object equals itself,
        and nothing equals null). */
    function Equals(o: Metadata?): (equal: bool)
      reads this, o
      ensures equal <==> o != null && metricType == o.metricType && tags == o.tags
    {
      this == o || (o != null && metricType == o.metricType && tags == o.tags)
    }
  }

  /** TaggerBaseImpl: the chainable mutators both taggers share; each writes
      through to the Metadata it is bound to. */
  class TaggerBase {
    const metadata: Metadata

    constructor (metadata: Metadata)
      ensures this.metadata == metadata
    {
      this.metadata := metadata;
    }

    /** withDimension: sets (or overwrites) one tag. */
    method WithDimension(key: string, value: string)
      modifies metadata
      ensures metadata.tags == old(metadata.tags)[key := value]
      ensures metadata.metricType == old(metadata.metricType)
    {
      metadata.tags := metadata.tags[key := value];
    }

    /** withSourceName: sets the `sf_source` tag. */
    method WithSourceName(sourceName: string)
      modifies metadata
      ensures metadata.tags == old(metadata.tags)[SOURCE := sourceName]
      ensures metadata.metricType == old(metadata.metricType)
    {
      metadata.tags := metadata.tags[SOURCE := sourceName];
    }

    /** withMetricName: sets the `sf_metric` tag, the base name. */
    method WithMetricName(metricName: string)
      modifies metadata
      ensures metadata.tags == old(metadata.tags)[METRIC := metricName]
      ensures metadata.metricType == old(metadata.metricType)
    {
      metadata.tags := metadata.tags[METRIC := metricName];
    }

    /** withMetricType: sets the type only (None stands for a null type). */
    method WithMetricType(metricType: Option<MetricType>)
      modifies metadata
      ensures metadata.metricType == metricType
      ensures metadata.tags == old(metadata.tags)
    {
      metadata.metricType := metricType;
    }

    /** createCodahaleName: the composite name of the current tags. */
    method CreateCodahaleName() returns (r: Result<string>)
      ensures r == CompositeName(metadata.tags)
    {
      r := metadata.GetCodahaleName();
    }
  }

  /** TaggerImpl: tags an instrument that already exists. */
  class Tagger {
    const metric: Metric
    const base: TaggerBase

    constructor (metric: Metric, metadata: Metadata)
      ensures this.metric == metric && base.metadata == metadata && fresh(base)
    {
      this.metric := metric;
      base := new TaggerBase(metadata);
    }

    /** register: registers the instrument under the composite name of the
        tags as they are now; fails without a base name or when the name is
        taken. */
    method Register(registry: MetricRegistry) returns (r: Result<Metric>)
      modifies registry
      ensures CompositeName(base.metadata.tags).Err? ==>
        r == Err(MissingMetricName) && registry.metrics == old(registry.metrics)
      ensures CompositeName(base.metadata.tags).Ok? ==>
        var name := CompositeName(base.metadata.tags).value;
        && (name in old(registry.metrics) ==>
              r == Err(AlreadyRegistered(name)) && registry.metrics == old(registry.metrics))
        && (name !in old(registry.metrics) ==>
              r == Ok(metric) && registry.metrics == old(registry.metrics)[name := metric])
    {
      var compositeName := base.CreateCodahaleName();
      if compositeName.Err? {
        return Err(compositeName.error);
      }
      r := registry.Register(compositeName.value, metric);
    }
  }

  /** The store: one Metadata per instrument identity. */
  class MetricMetadataStore {
    var collection: map<Metric, Metadata>

    constructor ()
      ensures collection == map[]
    {
      collection := map[];
    }

    /** getTags: the instrument's current tags; none for an instrument
        without an entry. */
    function GetTags(metric: Metric): (tags: map<string, string>)
      reads this, collection.Values
      ensures metric !in collection ==> tags == map[]
      ensures metric in collection ==> tags == collection[metric].tags
    {
      if metric in collection then collection[metric].tags else map[]
    }

    /** getMetricType: the instrument's type; absent when it has no entry or
        its type was never set. */
    function GetMetricType(metric: Metric): (t: Option<MetricType>)
      reads this, collection.Values
      ensures metric !in collection ==> t == None
      ensures metric in collection ==> t == collection[metric].metricType
    {
      if metric in collection then collection[metric].metricType else None
    }

    /** forMetric: a tagger bound to the instrument's Metadata, which is
        created, empty, on the first call and shared by every later one. */
    method ForMetric(metric: Metric) returns (tagger: Tagger)
      modifies this
      ensures metric in collection
      ensures fresh(tagger) && tagger.metric == metric && tagger.base.metadata == collection[metric]
      ensures metric in old(collection) ==> collection == old(collection)
      ensures metric !in old(collection) ==>
        && fresh(collection[metric])
        && collection[metric].tags == map[] && collection[metric].metricType == None
        && collection == old(collection)[metric := collection[metric]]
      ensures |collection| <= |old(collection)| + 1
    {
      if metric !in collection {
        var metadata := new Metadata();
        // the insertion never replaces an entry (the "Concurrency issue adding metadata" check)
        assert metric !in collection;
        collection := collection[metric := metadata];
      }
      tagger := new Tagger(metric, collection[metric]);
    }

    /** tagMetric: the older name of forMetric, with the same effect. */
    method TagMetric(metric: Metric) returns (tagger: Tagger)
      modifies this
      ensures metric in collection
      ensures fresh(tagger) && tagger.metric == metric && tagger.base.metadata == collection[metric]
      ensures metric in old(collection) ==> collection == old(collection)
      ensures metric !in old(collection) ==>
        && fresh(collection[metric])
        && collection[metric].tags == map[] && collection[metric].metricType == None
        && collection == old(collection)[metric := collection[metric]]
    {
      tagger := ForMetric(metric);
    }

    /** forBuilder: a builder tagger over a fresh Metadata that is not in the
        store; the store itself is left alone. */
    method ForBuilder(builder: MetricBuilder) returns (tagger: BuilderTagger)
      ensures fresh(tagger) && fresh(tagger.base.metadata)
      ensures tagger.builder == builder && tagger.store == this
      ensures tagger.base.metadata.tags == map[] && tagger.base.metadata.metricType == None
    {
      var metadata := new Metadata();
      tagger := new BuilderTagger(builder, this, metadata);
    }

    /** removeMetric: drops the instrument's entry, then removes whatever the
        registry holds under the composite name of the dropped tags. False
        when there was no entry; an entry without a base name is dropped and
        the name derivation's failure is reported. */
    method RemoveMetric(metric: Metric, registry: MetricRegistry) returns (r: Result<bool>)
      modifies this, registry
      ensures collection == old(collection) - {metric}
      ensures metric !in old(collection) ==>
        r == Ok(false) && registry.metrics == old(registry.metrics)
      ensures metric in old(collection) ==>
        var name := CompositeName(old(collection[metric].tags));
        && (name.Err? ==> r == Err(MissingMetricName) && registry.metrics == old(registry.metrics))
        && (name.Ok? ==> r == Ok(true) && registry.metrics == old(registry.metrics) - {name.value})
    {
      if metric !in collection {
        return Ok(false);
      }
      var metadata := collection[metric];
      collection := collection - {metric};
      var compositeName := metadata.GetCodahaleName();
      if compositeName.Err? {
        return Err(compositeName.error);
      }
      var _ := registry.Remove(compositeName.value);
      return Ok(true);
    }
  }

  /** BuilderTaggerImpl: tags an instrument that the builder creates on demand. */
  class BuilderTagger {
    const builder: MetricBuilder
    const store: MetricMetadataStore
    const base: TaggerBase

    constructor (builder: MetricBuilder, store: MetricMetadataStore, metadata: Metadata)
      ensures this.builder == builder && this.store == store
      ensures base.metadata == metadata && fresh(base)
    {
      this.builder := builder;
      this.store := store;
      base := new TaggerBase(metadata);
    }

    /** validateMetric: the instrument found under `name` is accepted only if
        it is of the builder's kind and its stored Metadata equals this
        tagger's; an instrument without an entry has different tags. */
    function ValidateMetric(existing: Metric, name: string): (r: Result<Metric>)
      reads store, store.collection.Values, base.metadata
      ensures r.Ok? <==>
        && builder.IsInstance(existing)
        && existing in store.collection
        && store.collection[existing].tags == base.metadata.tags
        && store.collection[existing].metricType == base.metadata.metricType
      ensures r.Ok? ==> r.value == existing
      ensures !builder.IsInstance(existing) ==> r == Err(WrongType(name))
      ensures builder.IsInstance(existing) && r.Err? ==> r == Err(DifferentTags(name))
    {
      if !builder.IsInstance(existing) then
        Err(WrongType(name))
      else if !base.metadata.Equals(if existing in store.collection then store.collection[existing] else null) then
        Err(DifferentTags(name))
      else
        Ok(existing)
    }

    /** createOrGet: the instrument registered under the composite name,
        validated against this tagger's metadata; or, when the name is free,
        a new instrument from the builder, registered under it and recorded
        with this tagger's Metadata. */
    method CreateOrGet(registry: MetricRegistry) returns (r: Result<Metric>)
      modifies registry, store
      ensures CompositeName(base.metadata.tags).Err? ==>
        && r == Err(MissingMetricName)
        && registry.metrics == old(registry.metrics) && store.collection == old(store.collection)
      ensures CompositeName(base.metadata.tags).Ok? ==>
        var name := CompositeName(base.metadata.tags).value;
        && (name in old(registry.metrics) ==>
              && registry.metrics == old(registry.metrics)
              && store.collection == old(store.collection)
              && r == ValidateMetric(registry.metrics[name], name))
        && (name !in old(registry.metrics) ==>
              && r.Ok? && fresh(r.value) && builder.IsInstance(r.value)
              && r.value !in old(store.collection)
              && registry.metrics == old(registry.metrics)[name := r.value]
              && store.collection == old(store.collection)[r.value := base.metadata])
      ensures r.Ok? ==>
        && CompositeName(base.metadata.tags).Ok?
        && registry.Get(CompositeName(base.metadata.tags).value) == Some(r.value)
        && builder.IsInstance(r.value)
        && r.value in store.collection
        && base.metadata.Equals(store.collection[r.value])
    {
      var nameResult := base.CreateCodahaleName();
      if nameResult.Err? {
        return Err(nameResult.error);
      }
      var compositeName := nameResult.value;
      var existingMetric := registry.Get(compositeName);
      if existingMetric.Some? && existingMetric.value in store.collection {
        return ValidateMetric(existingMetric.value, compositeName);
      }
      // the locked section: look again, then create and record
      existingMetric := registry.Get(compositeName);
      if existingMetric.Some? {
        return ValidateMetric(existingMetric.value, compositeName);
      }
      var newMetric := builder.NewMetric();
      var registered := registry.Register(compositeName, newMetric);
      // the name was free, so registration cannot be refused
      assert registered == Ok(newMetric);
      // the new instrument has no entry yet (the put result checked by checkArgument)
      assert newMetric !in store.collection;
      store.collection := store.collection[newMetric := base.metadata];
      return Ok(newMetric);
    }
  }
}
