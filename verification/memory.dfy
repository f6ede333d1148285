/**
 * The memory mapper: `/memory.json` becomes five gauge families. Whole
 * sections that are missing read as empty dicts; leaf statistics pass
 * through as `None`; the static-string samples exist only when their
 * section is present and non-empty.
 */
module Memory {
  import opened JsonValues
  import opened Prometheus

  const StatsSection := "Process Stats (bytes)"

  /** The memory segments of `hhvm_process_memory_bytes`: label value and the
      statistics field it reads, in the order sampled. */
  const Segments: seq<(string, string)> :=
    [("rss", "VmRss"), ("shared", "Shared"), ("text", "Text(Code)"), ("data", "Data")]

  function Success(doc: map<string, Json>): Family {
    Family(Gauge, "hhvm_memory_success", "HHVM was able to fetch its memory statistics", [],
           [Sample(map[], Lookup(doc, "Success", Int(0)))])
  }

  function VmSize(stat: map<string, Json>): Family {
    Family(Gauge, "hhvm_process_memory_size_bytes", "Virtual memory size of HHVM process", [],
           [Sample(map[], Lookup(stat, "VmSize", PyNone))])
  }

  function VmDetail(stat: map<string, Json>): Family {
    Family(Gauge, "hhvm_process_memory_bytes", "Virtual memory segment size", ["segment"],
           seq(|Segments|, i requires 0 <= i < |Segments| =>
             Sample(map["segment" := Raw(JStr(Segments[i].0))], Lookup(stat, Segments[i].1, PyNone))))
  }

  function StringsCount(samples: seq<Sample>): Family {
    Family(Gauge, "hhvm_memory_strings_count", "Static strings allocated", [], samples)
  }

  function StringsBytes(samples: seq<Sample>): Family {
    Family(Gauge, "hhvm_memory_strings_bytes", "Static strings total bytes used", [], samples)
  }

  /** The readings `(Details.Count, Bytes)` of a `Static Strings` section,
      each `nan` when missing; a section that is not a dict cannot be read. */
  function StringsReadings(strings: Json): Result<(Value, Value)> {
    match strings
    case JObj(fields) =>
      var details :- Section(fields, "Details");
      Ok((Lookup(details, "Count", NaN), Lookup(fields, "Bytes", NaN)))
    case _ => Raised(AttributeError)
  }

  /** The static-string readings when the `Static Strings` section is present
      and truthy; `None` otherwise. */
  function StaticStrings(breakdown: map<string, Json>): Result<Option<(Value, Value)>> {
    if "Static Strings" !in breakdown || !JTruthy(breakdown["Static Strings"]) then Ok(None)
    else
      var readings :- StringsReadings(breakdown["Static Strings"]);
      Ok(Some(readings))
  }

  /** The static-string readings found under `Breakdown` in the `Memory` section. */
  function BreakdownReadings(mem: map<string, Json>): Result<Option<(Value, Value)>> {
    var breakdown :- Section(mem, "Breakdown");
    StaticStrings(breakdown)
  }

  /** The reference definition of the memory output for an object document. */
  function MemoryOf(doc: map<string, Json>): Result<seq<Family>> {
    var mem :- Section(doc, "Memory");
    MemoryWithin(doc, mem)
  }

  /** The memory output once the `Memory` section `mem` has been read. */
  function MemoryWithin(doc: map<string, Json>, mem: map<string, Json>): Result<seq<Family>> {
    var readings :- SectionReadings(mem);
    Ok(Assemble(doc, readings.0, readings.1))
  }

  /** What the mapper reads from the `Memory` section: the process statistics,
      then the static-string readings. */
  function SectionReadings(mem: map<string, Json>): Result<(map<string, Json>, Option<(Value, Value)>)> {
    var stat :- Section(mem, StatsSection);
    var strings :- BreakdownReadings(mem);
    Ok((stat, strings))
  }

  /** The five memory families once every section has been read. */
  function Assemble(doc: map<string, Json>, stat: map<string, Json>, strings: Option<(Value, Value)>): seq<Family> {
    [Success(doc), VmSize(stat), VmDetail(stat),
     StringsCount(SamplesOf(strings, true)), StringsBytes(SamplesOf(strings, false))]
  }

  /** The one static-string sample (the count, or the bytes) when the
      readings exist, none otherwise. */
  function SamplesOf(strings: Option<(Value, Value)>, count: bool): seq<Sample> {
    if strings.None? then []
    else [Sample(map[], if count then strings.value.0 else strings.value.1)]
  }

  /** What `_collect_memory` yields, or the exception it raises. */
  function MemoryFamilies(data: Option<Json>): Result<seq<Family>> {
    if IsNone(data) then Ok([])
    else match data.value
      case JObj(doc) => MemoryOf(doc)
      case _ => Raised(AttributeError)
  }

  /** The `Process Stats (bytes)` part of `_collect_memory`: `VmSize` and the
      four segments, read with `statm.get(...)` and passed through as is. */
  method AddProcessStats(statm: Value, vmsize: MetricFamily, vmdetail: MetricFamily)
    returns (r: Result<map<string, Json>>)
    requires vmsize != vmdetail
    requires vmsize.labelNames == [] && vmdetail.labelNames == ["segment"]
    modifies vmsize, vmdetail
    ensures !(statm.Raw? && statm.j.JObj?) ==> r == Raised(AttributeError)
    ensures statm.Raw? && statm.j.JObj? ==> r.Ok?
    ensures r.Ok? ==> r.value == statm.j.fields
    ensures r.Ok? ==> vmsize.samples == old(vmsize.samples) + VmSize(r.value).samples
    ensures r.Ok? ==> vmdetail.samples == old(vmdetail.samples) + VmDetail(r.value).samples
    ensures r.Raised? ==> vmsize.samples == old(vmsize.samples) && vmdetail.samples == old(vmdetail.samples)
  {
    ghost var before := vmdetail.samples;
    var v :- Get(statm, "VmSize", PyNone);
    var stat := statm.j.fields;
    assert v == Lookup(stat, "VmSize", PyNone);
    vmsize.AddMetric([], v);
    ZipSingle("segment", Raw(JStr("rss")));
    vmdetail.AddMetric([Raw(JStr("rss"))], Lookup(stat, "VmRss", PyNone));
    ZipSingle("segment", Raw(JStr("shared")));
    vmdetail.AddMetric([Raw(JStr("shared"))], Lookup(stat, "Shared", PyNone));
    ZipSingle("segment", Raw(JStr("text")));
    vmdetail.AddMetric([Raw(JStr("text"))], Lookup(stat, "Text(Code)", PyNone));
    ZipSingle("segment", Raw(JStr("data")));
    vmdetail.AddMetric([Raw(JStr("data"))], Lookup(stat, "Data", PyNone));
    assert VmDetail(stat).samples == [
      Sample(map["segment" := Raw(JStr("rss"))], Lookup(stat, "VmRss", PyNone)),
      Sample(map["segment" := Raw(JStr("shared"))], Lookup(stat, "Shared", PyNone)),
      Sample(map["segment" := Raw(JStr("text"))], Lookup(stat, "Text(Code)", PyNone)),
      Sample(map["segment" := Raw(JStr("data"))], Lookup(stat, "Data", PyNone))];
    assert vmdetail.samples == before + VmDetail(stat).samples;
    r := Ok(stat);
  }

  /** The `Static Strings` part of `_collect_memory`, entered only when that
      section is truthy: `Details.Count` and `Bytes`, each `nan` when missing. */
  method AddStaticStrings(stringsm: Json, stringsCount: MetricFamily, stringsBytes: MetricFamily)
    returns (r: Result<(Value, Value)>)
    requires stringsCount != stringsBytes
    requires stringsCount.labelNames == [] && stringsBytes.labelNames == []
    modifies stringsCount, stringsBytes
    ensures r == StringsReadings(stringsm)
    ensures r.Ok? ==> stringsCount.samples == old(stringsCount.samples) + [Sample(map[], r.value.0)]
    ensures r.Ok? ==> stringsBytes.samples == old(stringsBytes.samples) + [Sample(map[], r.value.1)]
    ensures r.Raised? ==>
      stringsCount.samples == old(stringsCount.samples) && stringsBytes.samples == old(stringsBytes.samples)
  {
    var details :- Get(Raw(stringsm), "Details", EmptyDict);
    var count :- Get(details, "Count", NaN);
    stringsCount.AddMetric([], count);
    var bytes := Lookup(stringsm.fields, "Bytes", NaN);
    stringsBytes.AddMetric([], bytes);
    r := Ok((count, bytes));
  }

  /** The `Breakdown` part of `_collect_memory`: the static-string samples are
      added only when `Static Strings` is truthy. */
  method AddBreakdown(mem: map<string, Json>, stringsCount: MetricFamily, stringsBytes: MetricFamily)
    returns (r: Result<Option<(Value, Value)>>)
    requires stringsCount != stringsBytes
    requires stringsCount.labelNames == [] && stringsBytes.labelNames == []
    modifies stringsCount, stringsBytes
    ensures r == BreakdownReadings(mem)
    ensures r.Ok? ==>
      stringsCount.samples == old(stringsCount.samples) + SamplesOf(r.value, true)
    ensures r.Ok? ==>
      stringsBytes.samples == old(stringsBytes.samples) + SamplesOf(r.value, false)
    ensures r.Raised? ==>
      stringsCount.samples == old(stringsCount.samples) && stringsBytes.samples == old(stringsBytes.samples)
  {
    var stringsm :- Get(Lookup(mem, "Breakdown", EmptyDict), "Static Strings", PyNone);
    var breakdown := Lookup(mem, "Breakdown", EmptyDict).j.fields;
    assert Section(mem, "Breakdown") == Ok(breakdown);
    if Truthy(stringsm) {
      assert "Static Strings" in breakdown && breakdown["Static Strings"] == stringsm.j;
      var readings :- AddStaticStrings(stringsm.j, stringsCount, stringsBytes);
      r := Ok(Some(readings));
    } else {
      r := Ok(None);
    }
  }

  /** Everything `_collect_memory` reads from its `Memory` section, in order:
      the process statistics, then the breakdown. */
  method AddSections(mem: map<string, Json>, statm: Value,
                     vmsize: MetricFamily, vmdetail: MetricFamily,
                     stringsCount: MetricFamily, stringsBytes: MetricFamily)
    returns (r: Result<(map<string, Json>, Option<(Value, Value)>)>)
    requires statm == Lookup(mem, StatsSection, EmptyDict)
    requires vmsize != vmdetail && stringsCount != stringsBytes
    requires {vmsize, vmdetail} !! {stringsCount, stringsBytes}
    requires vmsize.labelNames == [] && vmdetail.labelNames == ["segment"]
    requires stringsCount.labelNames == [] && stringsBytes.labelNames == []
    modifies vmsize, vmdetail, stringsCount, stringsBytes
    ensures r == SectionReadings(mem)
    ensures r.Ok? ==> vmsize.samples == old(vmsize.samples) + VmSize(r.value.0).samples
    ensures r.Ok? ==> vmdetail.samples == old(vmdetail.samples) + VmDetail(r.value.0).samples
    ensures r.Ok? ==> stringsCount.samples == old(stringsCount.samples) + SamplesOf(r.value.1, true)
    ensures r.Ok? ==> stringsBytes.samples == old(stringsBytes.samples) + SamplesOf(r.value.1, false)
    ensures r.Raised? ==>
      stringsCount.samples == old(stringsCount.samples) && stringsBytes.samples == old(stringsBytes.samples)
    ensures Section(mem, StatsSection).Raised? ==>
      vmsize.samples == old(vmsize.samples) && vmdetail.samples == old(vmdetail.samples)
  {
    var stat :- AddProcessStats(statm, vmsize, vmdetail);
    assert Section(mem, StatsSection) == Ok(stat);
    var strings :- AddBreakdown(mem, stringsCount, stringsBytes);
    r := Ok((stat, strings));
  }

  /** `_collect_memory`: no document, no metrics; otherwise the family dict,
      then one `add_metric` after another as the `.get` chain walks it. */
  method CollectMemory(data: Option<Json>) returns (r: Result<seq<Family>>)
    ensures r == MemoryFamilies(data)
  {
    if IsNone(data) {
      return Ok([]);
    }
    if !data.value.JObj? {
      return Raised(AttributeError);
    }
    r := CollectMemoryDocument(data.value.fields);
  }

  /** The body of `_collect_memory` for a document that is a dict. */
  method CollectMemoryDocument(doc: map<string, Json>) returns (r: Result<seq<Family>>)
    ensures r == MemoryOf(doc)
  {
    var success := new MetricFamily(Gauge, "hhvm_memory_success",
                                    "HHVM was able to fetch its memory statistics", []);
    var vmsize := new MetricFamily(Gauge, "hhvm_process_memory_size_bytes",
                                   "Virtual memory size of HHVM process", []);
    var vmdetail := new MetricFamily(Gauge, "hhvm_process_memory_bytes",
                                     "Virtual memory segment size", ["segment"]);
    var stringsCount := new MetricFamily(Gauge, "hhvm_memory_strings_count",
                                         "Static strings allocated", []);
    var stringsBytes := new MetricFamily(Gauge, "hhvm_memory_strings_bytes",
                                         "Static strings total bytes used", []);

    var memorym := Lookup(doc, "Memory", EmptyDict);
    success.AddMetric([], Lookup(doc, "Success", Int(0)));
    assert success.Snapshot() == Success(doc);

    var statm :- Get(memorym, StatsSection, EmptyDict);
    var mem := memorym.j.fields;
    assert MemoryOf(doc) == MemoryWithin(doc, mem);
    var readings :- AddSections(mem, statm, vmsize, vmdetail, stringsCount, stringsBytes);
    var stat, strings := readings.0, readings.1;
    assert MemoryWithin(doc, mem) == Ok(Assemble(doc, stat, strings));
    assert vmsize.Snapshot() == VmSize(stat) && vmdetail.Snapshot() == VmDetail(stat);
    assert stringsCount.Snapshot() == StringsCount(SamplesOf(strings, true));
    assert stringsBytes.Snapshot() == StringsBytes(SamplesOf(strings, false));
    r := Ok([success.Snapshot(), vmsize.Snapshot(), vmdetail.Snapshot(),
             stringsCount.Snapshot(), stringsBytes.Snapshot()]);
  }

  /** No document, no metrics; a document that is not a dict raises. */
  lemma MemoryOutcome(data: Option<Json>)
    ensures IsNone(data) ==> MemoryFamilies(data) == Ok([])
    ensures !IsNone(data) && !data.value.JObj? ==> MemoryFamilies(data) == Raised(AttributeError)
  {
  }

  /** The memory mapper completes exactly when every `.get` it makes is on a
      dict: `Memory`, and inside it `Process Stats (bytes)` and `Breakdown`,
      are each missing or a dict, and a truthy `Static Strings` is a dict whose
      `Details` is missing or a dict. Otherwise it raises `AttributeError`. */
  lemma MemoryCompletes(doc: map<string, Json>)
    ensures MemoryOf(doc).Ok? <==>
      && ("Memory" !in doc || doc["Memory"].JObj?)
      && var mem := if "Memory" in doc then doc["Memory"].fields else map[];
         && (StatsSection !in mem || mem[StatsSection].JObj?)
         && ("Breakdown" !in mem || mem["Breakdown"].JObj?)
         && var breakdown := if "Breakdown" in mem then mem["Breakdown"].fields else map[];
            ("Static Strings" in breakdown && JTruthy(breakdown["Static Strings"]) ==>
               && breakdown["Static Strings"].JObj?
               && ("Details" !in breakdown["Static Strings"].fields
                   || breakdown["Static Strings"].fields["Details"].JObj?))
    ensures MemoryOf(doc).Raised? ==> MemoryOf(doc).error == AttributeError
  {
  }

  /** Whenever the memory mapper completes it yields exactly the five memory
      families, each once; `hhvm_tc_used_bytes` is not among them. */
  lemma {:induction false} MemoryFamilyNames(doc: map<string, Json>)
    requires MemoryOf(doc).Ok?
    ensures multiset(Names(MemoryOf(doc).value)) == multiset{
      "hhvm_memory_success", "hhvm_process_memory_size_bytes", "hhvm_process_memory_bytes",
      "hhvm_memory_strings_count", "hhvm_memory_strings_bytes"}
    ensures "hhvm_tc_used_bytes" !in Names(MemoryOf(doc).value)
  {
    var stat, strings := MemoryAssembled(doc);
    AssembleNames(doc, stat, strings);
  }

  /** The five memory family names, in the order the mapper yields them. */
  lemma AssembleNames(doc: map<string, Json>, stat: map<string, Json>, strings: Option<(Value, Value)>)
    ensures Names(Assemble(doc, stat, strings)) == [
      "hhvm_memory_success", "hhvm_process_memory_size_bytes", "hhvm_process_memory_bytes",
      "hhvm_memory_strings_count", "hhvm_memory_strings_bytes"]
  {
  }

  /** The success gauge has one sample: `Success`, or 0 when missing. */
  lemma {:induction false} MemorySuccessSample(doc: map<string, Json>)
    requires MemoryOf(doc).Ok?
    ensures forall f :: f in MemoryOf(doc).value && f.name == "hhvm_memory_success" ==>
      f.labelNames == [] && f.samples == [Sample(map[], if "Success" in doc then Raw(doc["Success"]) else Int(0))]
  {
    var stat, strings := MemoryAssembled(doc);
    AssembleNames(doc, stat, strings);
    OnlyFamilyNamed(Assemble(doc, stat, strings), 0);
  }

  /** `VmSize` and the four segments (`rss`, `shared`, `text`, `data`, in that
      order) are read from the process statistics and passed through, `None`
      when missing. */
  lemma {:induction false} MemoryProcessSamples(doc: map<string, Json>, mem: map<string, Json>, stat: map<string, Json>)
    requires MemoryOf(doc).Ok?
    requires Section(doc, "Memory") == Ok(mem) && Section(mem, StatsSection) == Ok(stat)
    ensures forall f :: f in MemoryOf(doc).value && f.name == "hhvm_process_memory_size_bytes" ==>
      f.labelNames == [] && f.samples == [Sample(map[], Lookup(stat, "VmSize", PyNone))]
    ensures forall f :: f in MemoryOf(doc).value && f.name == "hhvm_process_memory_bytes" ==>
      && f.labelNames == ["segment"]
      && f.samples == [
           Sample(map["segment" := Raw(JStr("rss"))], Lookup(stat, "VmRss", PyNone)),
           Sample(map["segment" := Raw(JStr("shared"))], Lookup(stat, "Shared", PyNone)),
           Sample(map["segment" := Raw(JStr("text"))], Lookup(stat, "Text(Code)", PyNone)),
           Sample(map["segment" := Raw(JStr("data"))], Lookup(stat, "Data", PyNone))]
  {
    var st, strings := MemoryAssembled(doc);
    var fs := Assemble(doc, stat, strings);
    AssembleNames(doc, stat, strings);
    OnlyFamilyNamed(fs, 1);
    OnlyFamilyNamed(fs, 2);
    VmDetailSamples(stat);
  }

  /** The four segment samples written out. */
  lemma VmDetailSamples(stat: map<string, Json>)
    ensures VmDetail(stat).samples == [
      Sample(map["segment" := Raw(JStr("rss"))], Lookup(stat, "VmRss", PyNone)),
      Sample(map["segment" := Raw(JStr("shared"))], Lookup(stat, "Shared", PyNone)),
      Sample(map["segment" := Raw(JStr("text"))], Lookup(stat, "Text(Code)", PyNone)),
      Sample(map["segment" := Raw(JStr("data"))], Lookup(stat, "Data", PyNone))]
  {
  }

  /** With no `Memory` section at all the mapper still completes: success as
      read, `None` for `VmSize` and every segment, and no static-string samples. */
  lemma MemoryWithoutSection(doc: map<string, Json>)
    requires "Memory" !in doc
    ensures MemoryOf(doc) == Ok([
      Success(doc),
      Family(Gauge, "hhvm_process_memory_size_bytes", "Virtual memory size of HHVM process", [],
             [Sample(map[], PyNone)]),
      Family(Gauge, "hhvm_process_memory_bytes", "Virtual memory segment size", ["segment"],
             [Sample(map["segment" := Raw(JStr("rss"))], PyNone),
              Sample(map["segment" := Raw(JStr("shared"))], PyNone),
              Sample(map["segment" := Raw(JStr("text"))], PyNone),
              Sample(map["segment" := Raw(JStr("data"))], PyNone)]),
      StringsCount([]),
      StringsBytes([])])
  {
    assert VmDetail(map[]).samples == [
      Sample(map["segment" := Raw(JStr("rss"))], PyNone),
      Sample(map["segment" := Raw(JStr("shared"))], PyNone),
      Sample(map["segment" := Raw(JStr("text"))], PyNone),
      Sample(map["segment" := Raw(JStr("data"))], PyNone)];
  }

  /** Each static-string family has one sample exactly when `Static Strings`
      is present and truthy (an empty `{}` counts as absent), and none
      otherwise; the sample is `Details.Count` (resp. `Bytes`), `nan` when
      missing. */
  lemma {:induction false} StaticStringSamples(doc: map<string, Json>, mem: map<string, Json>, breakdown: map<string, Json>)
    requires MemoryOf(doc).Ok?
    requires Section(doc, "Memory") == Ok(mem) && Section(mem, "Breakdown") == Ok(breakdown)
    ensures forall f :: f in MemoryOf(doc).value &&
                        f.name in {"hhvm_memory_strings_count", "hhvm_memory_strings_bytes"} ==>
      && f.labelNames == []
      && (|f.samples| == 1 <==> "Static Strings" in breakdown && JTruthy(breakdown["Static Strings"]))
      && (|f.samples| == 0 <==> !("Static Strings" in breakdown && JTruthy(breakdown["Static Strings"])))
    ensures "Static Strings" in breakdown && JTruthy(breakdown["Static Strings"]) ==>
      && breakdown["Static Strings"].JObj?
      && var strings := breakdown["Static Strings"].fields;
         var details := if "Details" in strings then strings["Details"].fields else map[];
         forall f :: f in MemoryOf(doc).value ==>
           && (f.name == "hhvm_memory_strings_count" ==>
                 f.samples == [Sample(map[], Lookup(details, "Count", NaN))])
           && (f.name == "hhvm_memory_strings_bytes" ==>
                 f.samples == [Sample(map[], Lookup(strings, "Bytes", NaN))])
  {
    var stat, strings := MemoryAssembled(doc);
    var fs := Assemble(doc, stat, strings);
    AssembleNames(doc, stat, strings);
    OnlyFamilyNamed(fs, 3);
    OnlyFamilyNamed(fs, 4);
  }

  /** Every memory sample carries exactly its family's label names. */
  lemma MemoryWellLabelled(doc: map<string, Json>)
    requires MemoryOf(doc).Ok?
    ensures forall f :: f in MemoryOf(doc).value ==> WellLabelled(f)
  {
    var stat, strings := MemoryAssembled(doc);
    AssembleWellLabelled(doc, stat, strings);
  }

  lemma AssembleWellLabelled(doc: map<string, Json>, stat: map<string, Json>, strings: Option<(Value, Value)>)
    ensures forall f :: f in Assemble(doc, stat, strings) ==> WellLabelled(f)
  {
    VmDetailWellLabelled(stat);
    UnlabelledWellLabelled(Success(doc));
    UnlabelledWellLabelled(VmSize(stat));
    UnlabelledWellLabelled(StringsCount(SamplesOf(strings, true)));
    UnlabelledWellLabelled(StringsBytes(SamplesOf(strings, false)));
  }

  lemma VmDetailWellLabelled(stat: map<string, Json>)
    ensures WellLabelled(VmDetail(stat))
  {
    assert (set n | n in ["segment"]) == {"segment"};
  }

  /** A completed memory output is assembled from the statistics section and
      the static-string readings. */
  lemma MemoryAssembled(doc: map<string, Json>) returns (stat: map<string, Json>, strings: Option<(Value, Value)>)
    requires MemoryOf(doc).Ok?
    ensures Section(doc, "Memory").Ok?
    ensures Section(Section(doc, "Memory").value, StatsSection) == Ok(stat)
    ensures BreakdownReadings(Section(doc, "Memory").value) == Ok(strings)
    ensures MemoryOf(doc).value == Assemble(doc, stat, strings)
  {
    var mem := Section(doc, "Memory").value;
    stat := Section(mem, StatsSection).value;
    strings := BreakdownReadings(mem).value;
  }
}
