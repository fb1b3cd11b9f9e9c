/** Composite-name derivation (Metadata.getCodahaleName): the name a metric is
    registered under, derived from its tag map alone. */
module Naming {
  import opened Results
  import opened KeyOrder

  /** MetricMetadata.METRIC: the tag holding the base metric name. */
  const METRIC := "sf_metric"
  /** MetricMetadata.SOURCE: the tag holding the source name. */
  const SOURCE := "sf_source"

  /** The value of each listed key followed by '.', in the order listed. */
  function Join(keys: seq<string>, values: map<string, string>): string
    requires Elems(keys) <= values.Keys
  {
    if keys == [] then "" else Join(keys[..|keys| - 1], values) + values[keys[|keys| - 1]] + "."
  }

  /** The composite name of a tag map: the value of every tag other than
      `sf_metric`, each followed by '.', in ascending key order, then the base
      name; no base name is an error. */
  ghost function CompositeName(tags: map<string, string>): (r: Result<string>)
    ensures r.Err? <==> METRIC !in tags
    ensures r.Err? ==> r.error == MissingMetricName
    ensures r.Ok? ==> |tags[METRIC]| <= |r.value| && r.value[|r.value| - |tags[METRIC]|..] == tags[METRIC]
  {
    if METRIC !in tags then
      Err(MissingMetricName)
    else
      var prefix := Join(SortedKeys(tags.Keys - {METRIC}), tags);
      assert (prefix + tags[METRIC])[|prefix|..] == tags[METRIC];
      Ok(prefix + tags[METRIC])
  }

  /** Join reads only the values of the keys it lists. */
  lemma {:induction false} JoinAgree(keys: seq<string>, m1: map<string, string>, m2: map<string, string>)
    requires Elems(keys) <= m1.Keys && Elems(keys) <= m2.Keys
    requires forall k :: k in keys ==> m1[k] == m2[k]
    ensures Join(keys, m1) == Join(keys, m2)
    decreases |keys|
  {
    if keys != [] {
      JoinAgree(keys[..|keys| - 1], m1, m2);
    }
  }

  /** Whatever ascending listing of the non-base keys is used, it yields the
      composite name: the name is the values in ascending key order, each
      followed by '.', then the base name, and depends on nothing but the
      tag map's contents (not on the order the tags were put in). */
  lemma NameFromAscendingListing(tags: map<string, string>, keys: seq<string>)
    requires METRIC in tags
    requires Ascending(keys) && Elems(keys) == tags.Keys - {METRIC}
    ensures CompositeName(tags) == Ok(Join(keys, tags) + tags[METRIC])
  {
    AscendingUnique(keys, SortedKeys(tags.Keys - {METRIC}));
  }

  /** The prefix before the base name does not depend on the `sf_metric`
      value: tag maps that differ only in their base name have names that
      differ only in that suffix. */
  lemma PrefixIndependentOfBaseName(tags: map<string, string>, base1: string, base2: string)
    ensures CompositeName(tags[METRIC := base1]).Ok? && CompositeName(tags[METRIC := base2]).Ok?
    ensures exists prefix ::
      && CompositeName(tags[METRIC := base1]).value == prefix + base1
      && CompositeName(tags[METRIC := base2]).value == prefix + base2
  {
    var t1, t2 := tags[METRIC := base1], tags[METRIC := base2];
    assert t1.Keys - {METRIC} == t2.Keys - {METRIC};
    var keys := SortedKeys(t1.Keys - {METRIC});
    JoinAgree(keys, t1, t2);
    NameFromAscendingListing(t1, keys);
    NameFromAscendingListing(t2, keys);
    var prefix := Join(keys, t1);
    assert CompositeName(t1).value == prefix + base1;
  }

  /** An example: {sf_metric: reqs, region: us, env: prod} is named
      "prod.us.reqs", "env" sorting before "region". */
  lemma NameExample()
    ensures CompositeName(map[METRIC := "reqs", "region" := "us", "env" := "prod"]) == Ok("prod.us.reqs")
  {
    var tags := map[METRIC := "reqs", "region" := "us", "env" := "prod"];
    var keys := ["env", "region"];
    assert Less("env", "region");
    assert Elems(keys) == tags.Keys - {METRIC};
    assert keys[..1] == ["env"] && ["env"][..0] == [];
    assert Join(["env"], tags) == "prod" + ".";
    assert Join(keys, tags) == "prod" + "." + "us" + ".";
    assert "prod" + "." + "us" + "." + "reqs" == "prod.us.reqs";
    NameFromAscendingListing(tags, keys);
  }

  /** Tag values are not escaped: a value holding '.' lets two different tag
      maps share one composite name, which is why createOrGet compares the
      stored metadata of a metric found under its name. */
  lemma SeparatorInValueCollides()
    ensures var t1 := map[METRIC := "x", "a" := "p.q"];
            var t2 := map[METRIC := "x", "a" := "p", "b" := "q"];
            t1 != t2 && CompositeName(t1) == CompositeName(t2) == Ok("p.q.x")
  {
    var t1 := map[METRIC := "x", "a" := "p.q"];
    var t2 := map[METRIC := "x", "a" := "p", "b" := "q"];
    assert "b" in t2 && "b" !in t1;
    assert Elems(["a"]) == t1.Keys - {METRIC};
    assert ["a"][..0] == [];
    assert Join(["a"], t1) == "p.q.";
    NameFromAscendingListing(t1, ["a"]);
    assert Less("a", "b");
    assert Elems(["a", "b"]) == t2.Keys - {METRIC};
    assert ["a", "b"][..1] == ["a"];
    assert Join(["a"], t2) == "p" + ".";
    assert Join(["a", "b"], t2) == "p" + "." + "q" + ".";
    assert "p" + "." + "q" + "." == "p.q.";
    NameFromAscendingListing(t2, ["a", "b"]);
    assert "p.q." + "x" == "p.q.x";
  }
}
