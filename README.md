# Metric metadata store, modelled in Dafny

This project models the metric metadata store of the SignalFx Java client's
codahale integration (`MetricMetadataImpl`). The store keeps a side table
from metric instruments to their `Metadata`, that is, a tag map and an
optional SignalFx metric type. Taggers fill that table in. Their finalize
calls derive a composite name from the tags and register the instrument in
the codahale `MetricRegistry`.

Files:

- `results.dfy`: the error cases (`MissingMetricName`, `AlreadyRegistered`,
  `WrongType`, `DifferentTags`) and the `Result`/`Option` values that carry them.
  The Java code throws these as exceptions.
- `key_order.dfy`: `String.compareTo` order, and a `TreeMap`'s key set as a
  strictly ascending key sequence. It proves the order is a strict total
  order, that `Insert` (TreeMap `put`) keeps it, and that the ascending listing
  of a key set is unique.
- `naming.dfy`: the composite name as a specification function, with its
  shape, determinism, base-name and collision lemmas.
- `codahale.dfy`: the collaborators. A `Metric` is an object, so its identity
  is object identity. A `MetricBuilder` has `NewMetric` and `IsInstance`. The
  `MetricRegistry` is a name-to-metric map with `Get`, `Register` and `Remove`.
- `metadata.dfy`: the classes `Metadata`, `TaggerBase`, `Tagger`,
  `BuilderTagger` and `MetricMetadataStore`. Each method's postcondition gives
  the whole new state of the store and the registry.
- `properties.dfy`: properties that span several calls, stated as client
  methods. They cover tag read-back, shared metadata, idempotent and
  converging `createOrGet`, mismatch rejection and double removal.

The store's `synchronized` sections are modelled as atomic steps. So the two
checks on the result of a store insertion become assertions, and the model
proves they never fire: the "Concurrency issue adding metadata" check in
`forMetric` (`MetricMetadataImpl.java` lines 59-60) and the bare
`checkArgument` in `createOrGet` (lines 171-172). The check inside `createOrGet` that the
registry accepts the new metric is also an assertion the model proves.

Three behaviours of the code that a reader might not expect are kept as written:

- `removeMetric` removes the store entry first and only then derives the
  name. An entry without `sf_metric` is therefore dropped, the registry is
  left alone, and the failure is reported (`RemoveMetric` returns
  `Err(MissingMetricName)`).
- A metric found under the composite name that has no store entry goes
  through `validateMetric`. It is refused with `WrongType` when the builder
  does not recognise it, and otherwise as having different tags.
- `getTags` returns a read-only view in the code. The model returns the
  tag map's value at the time of the call.

## Model

| member | source | states |
|---|---|---|
| KeyOrder.LessIrreflexive | signalfx-codahale/src/main/java/com/signalfx/codahale/reporter/MetricMetadataImpl.java:207-208 | no key sorts before itself in the TreeMap's key order |
| KeyOrder.LessTransitive | signalfx-codahale/src/main/java/com/signalfx/codahale/reporter/MetricMetadataImpl.java:207-208 | the TreeMap key order is transitive |
| KeyOrder.LessTotal | signalfx-codahale/src/main/java/com/signalfx/codahale/reporter/MetricMetadataImpl.java:207-208 | any two distinct keys are ordered one way or the other |
| KeyOrder.Insert | signalfx-codahale/src/main/java/com/signalfx/codahale/reporter/MetricMetadataImpl.java:212 | TreeMap put keeps the key sequence strictly ascending and adds exactly the new key |
| KeyOrder.AscendingUnique | signalfx-codahale/src/main/java/com/signalfx/codahale/reporter/MetricMetadataImpl.java:207-217 | the ascending iteration order of a set of keys is fixed by the keys alone |
| KeyOrder.SortedKeys | signalfx-codahale/src/main/java/com/signalfx/codahale/reporter/MetricMetadataImpl.java:208-214 | every finite key set has an ascending listing holding exactly its keys |
| Naming.CompositeName | signalfx-codahale/src/main/java/com/signalfx/codahale/reporter/MetricMetadataImpl.java:201-221 | name derivation fails exactly when `sf_metric` is absent, and a derived name always ends with the base name |
| Naming.JoinAgree | signalfx-codahale/src/main/java/com/signalfx/codahale/reporter/MetricMetadataImpl.java:209-219 | the appended values depend only on the values of the listed keys, so copying them into the sorted map changes nothing |
| Naming.NameFromAscendingListing | signalfx-codahale/src/main/java/com/signalfx/codahale/reporter/MetricMetadataImpl.java:207-221 | the name is `value + "."` for every non-`sf_metric` tag in ascending key order, then the base name, whatever the insertion order |
| Naming.PrefixIndependentOfBaseName | signalfx-codahale/src/main/java/com/signalfx/codahale/reporter/MetricMetadataImpl.java:210-220 | the `sf_metric` entry is skipped when the prefix is built, so the prefix does not depend on the base name, which enters the name only as its suffix |
| Naming.NameExample | signalfx-codahale/src/main/java/com/signalfx/codahale/reporter/MetricMetadataImpl.java:207-221 | an example: `{sf_metric: reqs, region: us, env: prod}` is named `prod.us.reqs` |
| Naming.SeparatorInValueCollides | signalfx-codahale/src/main/java/com/signalfx/codahale/reporter/MetricMetadataImpl.java:217-219 | values are not escaped, so two different tag maps can share one name |
| Codahale.MetricBuilder.NewMetric | signalfx-codahale/src/main/java/com/signalfx/codahale/reporter/MetricMetadataImpl.java:169-170 | the builder yields a new instrument that its own `isInstance` accepts |
| Codahale.MetricRegistry.Get | signalfx-codahale/src/main/java/com/signalfx/codahale/reporter/MetricMetadataImpl.java:156 | lookup finds the metric registered under the name, or nothing |
| Codahale.MetricRegistry.Register | signalfx-codahale/src/main/java/com/signalfx/codahale/reporter/MetricMetadataImpl.java:166-170 | registration adds the metric under a free name and refuses a taken one, leaving the registry unchanged |
| Codahale.MetricRegistry.Remove | signalfx-codahale/src/main/java/com/signalfx/codahale/reporter/MetricMetadataImpl.java:79 | removal drops exactly the named entry and reports whether it existed |
| MetricMetadata.Metadata.constructor | signalfx-codahale/src/main/java/com/signalfx/codahale/reporter/MetricMetadataImpl.java:197-199 | new metadata has no tags and no type |
| MetricMetadata.Metadata.GetCodahaleName | signalfx-codahale/src/main/java/com/signalfx/codahale/reporter/MetricMetadataImpl.java:201-222 | both loops, visiting tags in any order, compute exactly the composite name, or fail without `sf_metric` |
| MetricMetadata.Metadata.Equals | signalfx-codahale/src/main/java/com/signalfx/codahale/reporter/MetricMetadataImpl.java:224-243 | equal exactly when the other is non-null with the same metric type and an equal tag map |
| MetricMetadata.TaggerBase.constructor | signalfx-codahale/src/main/java/com/signalfx/codahale/reporter/MetricMetadataImpl.java:93-95 | a tagger is bound to the given metadata object |
| MetricMetadata.TaggerBase.WithDimension | signalfx-codahale/src/main/java/com/signalfx/codahale/reporter/MetricMetadataImpl.java:87-91 | sets exactly the given key, overwriting any old value, and leaves the type alone |
| MetricMetadata.TaggerBase.WithSourceName | signalfx-codahale/src/main/java/com/signalfx/codahale/reporter/MetricMetadataImpl.java:97-101 | sets exactly `sf_source` and leaves the type alone |
| MetricMetadata.TaggerBase.WithMetricName | signalfx-codahale/src/main/java/com/signalfx/codahale/reporter/MetricMetadataImpl.java:103-107 | sets exactly `sf_metric` and leaves the type alone |
| MetricMetadata.TaggerBase.WithMetricType | signalfx-codahale/src/main/java/com/signalfx/codahale/reporter/MetricMetadataImpl.java:109-113 | sets only the type and leaves the tags alone |
| MetricMetadata.TaggerBase.CreateCodahaleName | signalfx-codahale/src/main/java/com/signalfx/codahale/reporter/MetricMetadataImpl.java:115-117 | the composite name of the bound metadata's current tags |
| MetricMetadata.Tagger.constructor | signalfx-codahale/src/main/java/com/signalfx/codahale/reporter/MetricMetadataImpl.java:124-127 | a tagger holds its instrument and metadata |
| MetricMetadata.Tagger.Register | signalfx-codahale/src/main/java/com/signalfx/codahale/reporter/MetricMetadataImpl.java:129-133 | registers the instrument under the name of the current tags; fails without a base name or on a taken name, leaving the registry unchanged |
| MetricMetadata.MetricMetadataStore.constructor | signalfx-codahale/src/main/java/com/signalfx/codahale/reporter/MetricMetadataImpl.java:20-23 | a new store has no entries |
| MetricMetadata.MetricMetadataStore.GetTags | signalfx-codahale/src/main/java/com/signalfx/codahale/reporter/MetricMetadataImpl.java:25-33 | an unknown instrument has no tags; a known one has its metadata's current tags |
| MetricMetadata.MetricMetadataStore.GetMetricType | signalfx-codahale/src/main/java/com/signalfx/codahale/reporter/MetricMetadataImpl.java:35-43 | absent for an unknown instrument or an unset type, otherwise the stored type |
| MetricMetadata.MetricMetadataStore.ForMetric | signalfx-codahale/src/main/java/com/signalfx/codahale/reporter/MetricMetadataImpl.java:50-65 | inserts fresh empty metadata only when the instrument has no entry; otherwise the store is unchanged; grows by at most one; the tagger is bound to the stored record |
| MetricMetadata.MetricMetadataStore.TagMetric | signalfx-codahale/src/main/java/com/signalfx/codahale/reporter/MetricMetadataImpl.java:45-48 | same effect as forMetric |
| MetricMetadata.MetricMetadataStore.ForBuilder | signalfx-codahale/src/main/java/com/signalfx/codahale/reporter/MetricMetadataImpl.java:67-71 | a builder tagger over fresh, empty, unstored metadata; the store is untouched |
| MetricMetadata.MetricMetadataStore.RemoveMetric | signalfx-codahale/src/main/java/com/signalfx/codahale/reporter/MetricMetadataImpl.java:73-81 | false and no registry change without an entry; otherwise the entry is deleted and the registry loses exactly the entry's composite name, returning true |
| MetricMetadata.BuilderTagger.constructor | signalfx-codahale/src/main/java/com/signalfx/codahale/reporter/MetricMetadataImpl.java:145-151 | a builder tagger holds its builder, the store and its metadata |
| MetricMetadata.BuilderTagger.ValidateMetric | signalfx-codahale/src/main/java/com/signalfx/codahale/reporter/MetricMetadataImpl.java:177-190 | accepts the found metric exactly when the builder recognises it and its stored metadata has equal tags and type; a missing entry is a mismatch; otherwise the wrong-type or different-tags error |
| MetricMetadata.BuilderTagger.CreateOrGet | signalfx-codahale/src/main/java/com/signalfx/codahale/reporter/MetricMetadataImpl.java:153-175 | fails without a base name; a taken name yields the validated existing metric with nothing changed; a free name gets exactly one new metric, registered under it and recorded with this tagger's metadata, having had no entry before; a success is never a mismatched metric |
| MetadataProperties.TagsReadBack | signalfx-codahale/src/main/java/com/signalfx/codahale/reporter/MetricMetadataImpl.java:26-43 | an untouched instrument has no tags and no type; after forMetric, withDimension and withMetricType, both read back |
| MetadataProperties.ForMetricTwice | signalfx-codahale/src/main/java/com/signalfx/codahale/reporter/MetricMetadataImpl.java:51-65 | repeated forMetric calls share one record, add at most one entry and change no other entry |
| MetadataProperties.SharedMetadata | signalfx-codahale/src/main/java/com/signalfx/codahale/reporter/MetricMetadataImpl.java:51-65 | for any instrument, after `withMetricName` through one tagger from forMetric, the store and a second tagger from forMetric both see the old tags with `sf_metric` set |
| MetadataProperties.CreateOrGetTwice | signalfx-codahale/src/main/java/com/signalfx/codahale/reporter/MetricMetadataImpl.java:154-175 | a second createOrGet returns the same metric and registers nothing more; the registry gains at most the composite name |
| MetadataProperties.EqualTaggersConverge | signalfx-codahale/src/main/java/com/signalfx/codahale/reporter/MetricMetadataImpl.java:154-190 | two builder taggers over one store and one builder, with equal tags and equal types: once the first createOrGet succeeds, the second returns the same metric |
| MetadataProperties.MismatchRejected | signalfx-codahale/src/main/java/com/signalfx/codahale/reporter/MetricMetadataImpl.java:177-190 | two builder taggers over one store and one builder with the same composite name but different tags or type: once the first succeeds, the second is refused with the different-tags error for that name |
| MetadataProperties.DottedValueCollisionRejected | signalfx-codahale/src/main/java/com/signalfx/codahale/reporter/MetricMetadataImpl.java:177-190 | an example: on an empty registry, `{sf_metric: x, a: p.q}` creates `p.q.x` and `{sf_metric: x, a: p, b: q}` is then refused with the different-tags error |
| MetadataProperties.RemoveTwice | signalfx-codahale/src/main/java/com/signalfx/codahale/reporter/MetricMetadataImpl.java:74-81 | a second removal returns false, and the removed instrument has no tags |

## Left out

- Concurrency: the `ConcurrentHashMap`s, the double-checked locking and the `synchronized` blocks are modelled as one sequential map with atomic operations. Thread interleavings are not modelled, so the property that racing `createOrGet` calls create exactly one instrument is only covered for calls made in sequence.
- `Metadata.hashCode`: it relies on Java's hashing and is only needed for hash-map plumbing.
- Fluent chaining: the mutators return the tagger itself in the code. In the model they are statements on the tagger's `base`, a `TaggerBase` that `Tagger` and `BuilderTagger` hold by composition.
- `Tagger.metric()`: this is the tagger's `metric` field itself.
- `MetricMetadata.MetricMetadataStore.GetTags`: it returns the tag map's value when called. The code returns a read-only live view that later mutations show through.
- Null arguments: a null key, value or name makes the Java maps throw. Strings here are never null. A null metric type is modelled as `None`.
- The library implementations of codahale's `MetricRegistry`, `MetricBuilder` and `Metric` are not modelled; `codahale.dfy` captures only what the store relies on: `register` refuses a taken name, `getMetrics().get` is a lookup, `remove` drops one name, and `newMetric` yields an instrument never seen before. Registering a `MetricSet` and registry listeners are left out.
- `KeyOrder.Less`: it compares characters by code point. `String.compareTo` compares UTF-16 code units, and the two orders differ only for characters outside the Basic Multilingual Plane.
- `MetricType`'s values (gauge, counter, enum, cumulative counter) are those of SignalFx's protocol buffer definition. That definition is not part of this model.
- The HTTP connection, its proxy handling, the protocol buffer receiver factory, the AWS instance-identity lookup and the scheduled reporter are I/O and configuration wiring. They are not part of this model.
