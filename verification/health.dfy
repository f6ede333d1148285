/**
 * The health mapper: `/check-health` becomes eight unlabelled gauges and the
 * translation-cache gauge labelled by `block`.
 */
module Health {
  import opened JsonValues
  import opened Prometheus

  /** A scalar health gauge: the document key it reads and the family it fills. */
  datatype Entry = Entry(key: string, name: string, help: string)

  /** The scalar gauges of the health mapper, keyed by document field. */
  const Scalars: seq<Entry> := [
    Entry("load", "hhvm_load", "Number of threads actively servicing requests"),
    Entry("queued", "hhvm_queued", "Number of queued jobs"),
    Entry("hhbc-roarena-capac", "hhvm_hhbc_ro_arena_capacity_bytes",
          "Read-only arena capacity, used only in RepoAuth mode"),
    Entry("rds", "hhvm_rds_used_bytes", "RDS total bytes usage"),
    Entry("rds-local", "hhvm_rds_local_bytes", "RDS local region bytes usage"),
    Entry("rds-persistent", "hhvm_rds_persistent_bytes", "RDS persistent region bytes usage"),
    Entry("units", "hhvm_units_total", "Number of loaded units"),
    Entry("funcs", "hhvm_funcs_total", "Number of functions created")
  ]

  const TcName := "hhvm_tc_used_bytes"
  const TcHelp := "Translation cache usage"

  /** The translation-cache generations after `main`, in the order sampled. */
  const TcBlocks: seq<string> := ["hot", "prof", "cold", "frozen"]

  /** A field that reads as `nan` when missing. */
  function Reading(doc: map<string, Json>, key: string): Value {
    Lookup(doc, key, NaN)
  }

  function TcSample(block: string, doc: map<string, Json>, key: string): Sample {
    Sample(map["block" := Raw(JStr(block))], Reading(doc, key))
  }

  /** The reference definition of the health output for an object document:
      one family per catalogue entry, then the translation-cache family whose
      `main` sample reads `tc-size` and whose other samples read
      `tc-<block>size`. */
  function HealthOf(doc: map<string, Json>): seq<Family> {
    seq(|Scalars|, i requires 0 <= i < |Scalars| =>
      Family(Gauge, Scalars[i].name, Scalars[i].help, [], [Sample(map[], Reading(doc, Scalars[i].key))]))
    + [Family(Gauge, TcName, TcHelp, ["block"],
        [TcSample("main", doc, "tc-size")]
        + seq(|TcBlocks|, i requires 0 <= i < |TcBlocks| =>
            TcSample(TcBlocks[i], doc, "tc-" + TcBlocks[i] + "size")))]
  }

  /** What `_collect_health` yields, or the exception it raises. */
  function HealthFamilies(data: Option<Json>): Result<seq<Family>> {
    if IsNone(data) then Ok([])
    else match data.value
      case JObj(doc) => Ok(HealthOf(doc))
      case _ => Raised(AttributeError)
  }

  /** The `metrics` dict literal of `_collect_health`: one empty gauge per
      scalar catalogue entry. */
  method NewScalarFamilies() returns (metrics: seq<MetricFamily>)
    ensures |metrics| == |Scalars|
    ensures forall j :: 0 <= j < |metrics| ==> fresh(metrics[j])
    ensures forall j, k :: 0 <= j < k < |metrics| ==> metrics[j] != metrics[k]
    ensures forall j :: 0 <= j < |metrics| ==>
      metrics[j].Snapshot() == Family(Gauge, Scalars[j].name, Scalars[j].help, [], [])
  {
    metrics := [];
    for i := 0 to |Scalars|
      invariant |metrics| == i
      invariant forall j :: 0 <= j < i ==> fresh(metrics[j])
      invariant forall j, k :: 0 <= j < k < i ==> metrics[j] != metrics[k]
      invariant forall j :: 0 <= j < i ==>
        metrics[j].Snapshot() == Family(Gauge, Scalars[j].name, Scalars[j].help, [], [])
    {
      var f := new MetricFamily(Gauge, Scalars[i].name, Scalars[i].help, []);
      metrics := metrics + [f];
    }
  }

  /** The translation-cache part of `_collect_health`: the `main` sample, then
      one sample per block. */
  method NewTcFamily(doc: map<string, Json>) returns (tc: MetricFamily)
    ensures fresh(tc)
    ensures tc.Snapshot() == HealthOf(doc)[|Scalars|]
  {
    tc := new MetricFamily(Gauge, TcName, TcHelp, ["block"]);
    ZipSingle("block", Raw(JStr("main")));
    tc.AddMetric([Raw(JStr("main"))], Reading(doc, "tc-size"));
    for i := 0 to |TcBlocks|
      invariant tc.Snapshot() == Family(Gauge, TcName, TcHelp, ["block"],
        [TcSample("main", doc, "tc-size")]
        + seq(i, k requires 0 <= k < i => TcSample(TcBlocks[k], doc, "tc-" + TcBlocks[k] + "size")))
    {
      ZipSingle("block", Raw(JStr(TcBlocks[i])));
      tc.AddMetric([Raw(JStr(TcBlocks[i]))], Reading(doc, "tc-" + TcBlocks[i] + "size"));
    }
  }

  /** `_collect_health`: no document, no metrics; a document that is not a
      dict raises; otherwise the families of `CollectHealthDocument`. */
  method CollectHealth(data: Option<Json>) returns (r: Result<seq<Family>>)
    ensures r == HealthFamilies(data)
  {
    if IsNone(data) {
      return Ok([]);
    }
    if !data.value.JObj? {
      return Raised(AttributeError);
    }
    var out := CollectHealthDocument(data.value.fields);
    r := Ok(out);
  }

  /** The body of `_collect_health` for a dict document: build the family
      dict, add one sample per scalar key, then build the translation-cache
      family block by block. */
  method CollectHealthDocument(doc: map<string, Json>) returns (out: seq<Family>)
    ensures out == HealthOf(doc)
  {
    var metrics := NewScalarFamilies();

    // one sample per scalar family, read from the document or `nan`
    for i := 0 to |metrics|
      invariant forall j :: 0 <= j < |metrics| ==> fresh(metrics[j])
      invariant forall j :: 0 <= j < i ==>
        metrics[j].Snapshot() == Family(Gauge, Scalars[j].name, Scalars[j].help, [],
                                        [Sample(map[], Reading(doc, Scalars[j].key))])
      invariant forall j :: i <= j < |metrics| ==>
        metrics[j].Snapshot() == Family(Gauge, Scalars[j].name, Scalars[j].help, [], [])
    {
      metrics[i].AddMetric([], Reading(doc, Scalars[i].key));
    }

    var tc := NewTcFamily(doc);
    out := Snapshots(metrics + [tc]);
    assert |out| == |HealthOf(doc)|;
    forall j | 0 <= j < |out|
      ensures out[j] == HealthOf(doc)[j]
    {
      if j < |metrics| {
        assert (metrics + [tc])[j] == metrics[j];
      }
    }
  }

  /** No document, no metrics; a document that is not a dict raises. */
  lemma HealthOutcome(data: Option<Json>)
    ensures IsNone(data) ==> HealthFamilies(data) == Ok([])
    ensures !IsNone(data) && !data.value.JObj? ==> HealthFamilies(data) == Raised(AttributeError)
    ensures !IsNone(data) && data.value.JObj? ==> HealthFamilies(data).Ok?
  {
  }

  lemma CatalogueNamesDistinct()
    ensures forall i, j :: 0 <= i < j < |Scalars| ==> Scalars[i].name != Scalars[j].name
    ensures forall i :: 0 <= i < |Scalars| ==> Scalars[i].name != TcName
  {
  }

  /** Any object document yields exactly the nine health families, each once
      (the order among them is that of a Python dict and is not relied on). */
  lemma {:induction false} HealthFamilyNames(doc: map<string, Json>)
    ensures HealthFamilies(Some(JObj(doc))).Ok?
    ensures multiset(Names(HealthFamilies(Some(JObj(doc))).value)) == multiset{
      "hhvm_load", "hhvm_queued", "hhvm_hhbc_ro_arena_capacity_bytes",
      "hhvm_rds_used_bytes", "hhvm_rds_local_bytes", "hhvm_rds_persistent_bytes",
      "hhvm_units_total", "hhvm_funcs_total", "hhvm_tc_used_bytes"}
  {
    var fs := HealthOf(doc);
    var names := [
      "hhvm_load", "hhvm_queued", "hhvm_hhbc_ro_arena_capacity_bytes",
      "hhvm_rds_used_bytes", "hhvm_rds_local_bytes", "hhvm_rds_persistent_bytes",
      "hhvm_units_total", "hhvm_funcs_total", "hhvm_tc_used_bytes"];
    assert |fs| == 9 && fs[8].name == TcName;
    forall i | 0 <= i < 8
      ensures fs[i].name == Scalars[i].name
    {
    }
    assert Names(fs) == names;
    assert HealthFamilies(Some(JObj(doc))) == Ok(fs);
    NineNames(names);
  }

  lemma NineNames(names: seq<string>)
    requires names == [
      "hhvm_load", "hhvm_queued", "hhvm_hhbc_ro_arena_capacity_bytes",
      "hhvm_rds_used_bytes", "hhvm_rds_local_bytes", "hhvm_rds_persistent_bytes",
      "hhvm_units_total", "hhvm_funcs_total", "hhvm_tc_used_bytes"]
    ensures multiset(names) == multiset{
      "hhvm_load", "hhvm_queued", "hhvm_hhbc_ro_arena_capacity_bytes",
      "hhvm_rds_used_bytes", "hhvm_rds_local_bytes", "hhvm_rds_persistent_bytes",
      "hhvm_units_total", "hhvm_funcs_total", "hhvm_tc_used_bytes"}
  {
  }

  /** Each scalar family is an unlabelled gauge with exactly one sample whose
      value is the document field, or `nan` when the field is missing. */
  lemma {:induction false} HealthScalarSample(doc: map<string, Json>, e: Entry)
    requires e in Scalars
    ensures forall f :: f in HealthOf(doc) && f.name == e.name ==>
      && f.kind == Gauge
      && f.help == e.help
      && f.labelNames == []
      && f.samples == [Sample(map[], if e.key in doc then Raw(doc[e.key]) else NaN)]
  {
    CatalogueNamesDistinct();
    var fs := HealthOf(doc);
    forall f | f in fs && f.name == e.name
      ensures f.kind == Gauge && f.help == e.help && f.labelNames == []
      ensures f.samples == [Sample(map[], if e.key in doc then Raw(doc[e.key]) else NaN)]
    {
      var i :| 0 <= i < |fs| && fs[i] == f;
      var k :| 0 <= k < |Scalars| && Scalars[k] == e;
      assert i == k;
    }
  }

  /** The translation-cache family has the label `block` and exactly five
      samples, `main`, `hot`, `prof`, `cold`, `frozen` in that order, read from
      `tc-size` and `tc-<block>size`, each `nan` when missing. */
  lemma {:induction false} HealthTcSamples(doc: map<string, Json>)
    ensures forall f :: f in HealthOf(doc) && f.name == "hhvm_tc_used_bytes" ==>
      && f.kind == Gauge
      && f.labelNames == ["block"]
      && f.samples == [
           Sample(map["block" := Raw(JStr("main"))], Lookup(doc, "tc-size", NaN)),
           Sample(map["block" := Raw(JStr("hot"))], Lookup(doc, "tc-hotsize", NaN)),
           Sample(map["block" := Raw(JStr("prof"))], Lookup(doc, "tc-profsize", NaN)),
           Sample(map["block" := Raw(JStr("cold"))], Lookup(doc, "tc-coldsize", NaN)),
           Sample(map["block" := Raw(JStr("frozen"))], Lookup(doc, "tc-frozensize", NaN))]
  {
    CatalogueNamesDistinct();
    var fs := HealthOf(doc);
    assert "tc-" + "hot" + "size" == "tc-hotsize";
    assert "tc-" + "prof" + "size" == "tc-profsize";
    assert "tc-" + "cold" + "size" == "tc-coldsize";
    assert "tc-" + "frozen" + "size" == "tc-frozensize";
    forall f | f in fs && f.name == TcName
      ensures f == fs[|Scalars|]
    {
      var i :| 0 <= i < |fs| && fs[i] == f;
    }
  }

  /** An empty document (`{}`) gives `nan` for every sample. */
  lemma HealthEmptyDocument()
    ensures forall f, s :: f in HealthOf(map[]) && s in f.samples ==> s.value == NaN
  {
  }

  /** Every health sample carries exactly its family's label names. */
  lemma HealthWellLabelled(doc: map<string, Json>)
    ensures forall f :: f in HealthOf(doc) ==> WellLabelled(f)
  {
    assert (set n | n in ["block"]) == {"block"};
  }
}
