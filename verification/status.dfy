/**
 * The status mapper: `/status.json` becomes the build-information gauge and
 * the process start-time counter, both filled only when `status.process` is
 * present and non-empty.
 */
module Status {
  import opened JsonValues
  import opened Prometheus

  /** Parsing the `start` string with the format `%a, %d-%b-%Y %H:%M:%S %Z`
      and converting it to Unix seconds; `None` when the string does not
      parse. Supplied from outside: the conversion depends on the local time
      zone. */
  type StartParser = string -> Option<int>

  function BuildInfo(samples: seq<Sample>): Family {
    Family(Gauge, "hhvm_build_info", "HHVM build information", ["compiler", "build"], samples)
  }

  function Startup(samples: seq<Sample>): Family {
    Family(Counter, "hhvm_startup", "HHVM process start time", [], samples)
  }

  /** The start time of a non-empty process section: a missing `start` is the
      empty string, a value that is not a string cannot be parsed at all, and
      a string that does not parse is an error. */
  function StartTime(process: map<string, Json>, parseStart: StartParser): Result<int> {
    match if "start" in process then process["start"] else JStr("")
    case JStr(s) =>
      (match parseStart(s)
       case Some(t) => Ok(t)
       case None => Raised(ValueError))
    case _ => Raised(TypeError)
  }

  /** The reference definition of the status output for an object document. */
  function StatusOf(doc: map<string, Json>, parseStart: StartParser): Result<seq<Family>> {
    var status :- Section(doc, "status");
    if "process" !in status || !JTruthy(status["process"]) then
      Ok([BuildInfo([]), Startup([])])
    else match status["process"]
      case JObj(process) =>
        var t :- StartTime(process, parseStart);
        Ok([BuildInfo([Sample(map["compiler" := Lookup(process, "compiler", PyNone),
                                  "build" := Lookup(process, "build", PyNone)], Int(1))]),
            Startup([Sample(map[], Int(t))])])
      case _ => Raised(AttributeError)
  }

  /** What `_collect_status` yields, or the exception it raises. */
  function StatusFamilies(data: Option<Json>, parseStart: StartParser): Result<seq<Family>> {
    if IsNone(data) then Ok([])
    else match data.value
      case JObj(doc) => StatusOf(doc, parseStart)
      case _ => Raised(AttributeError)
  }

  /** The body of `if processm:` in `_collect_status`: the build-information
      sample (value 1, labels passed through), then the parsed start time. */
  method AddProcess(process: map<string, Json>, compiler: MetricFamily, start: MetricFamily,
                    parseStart: StartParser) returns (r: Result<int>)
    requires compiler != start
    requires compiler.labelNames == ["compiler", "build"] && start.labelNames == []
    modifies compiler, start
    ensures r == StartTime(process, parseStart)
    ensures compiler.samples == old(compiler.samples) +
      [Sample(map["compiler" := Lookup(process, "compiler", PyNone),
                  "build" := Lookup(process, "build", PyNone)], Int(1))]
    ensures r.Ok? ==> start.samples == old(start.samples) + [Sample(map[], Int(r.value))]
    ensures r.Raised? ==> start.samples == old(start.samples)
  {
    var c := Lookup(process, "compiler", PyNone);
    var b := Lookup(process, "build", PyNone);
    ZipPair("compiler", "build", c, b);
    compiler.AddMetric([c, b], Int(1));

    var hhvmStart := Lookup(process, "start", Raw(JStr("")));
    if !hhvmStart.j.JStr? {
      return Raised(TypeError);
    }
    var t := parseStart(hhvmStart.j.s);
    if t.None? {
      return Raised(ValueError);
    }
    start.AddMetric([], Int(t.value));
    r := Ok(t.value);
  }

  /** `_collect_status`: the two families, then the build-information sample
      and the parsed start time when the process section is truthy. */
  method CollectStatus(data: Option<Json>, parseStart: StartParser) returns (r: Result<seq<Family>>)
    ensures r == StatusFamilies(data, parseStart)
  {
    if IsNone(data) {
      return Ok([]);
    }
    var compiler := new MetricFamily(Gauge, "hhvm_build_info", "HHVM build information",
                                     ["compiler", "build"]);
    var start := new MetricFamily(Counter, "hhvm_startup", "HHVM process start time", []);

    var status :- Get(Raw(data.value), "status", EmptyDict);
    var doc := data.value.fields;
    assert !status.j.JObj? ==> StatusOf(doc, parseStart) == Raised(AttributeError);
    var processm :- Get(status, "process", EmptyDict);
    assert Section(doc, "status") == Ok(status.j.fields);
    if Truthy(processm) {
      assert "process" in status.j.fields && status.j.fields["process"] == processm.j;
      assert !processm.j.JObj? ==> StatusOf(doc, parseStart) == Raised(AttributeError);
      var _ :- Get(processm, "compiler", PyNone);
      var process := processm.j.fields;
      var t :- AddProcess(process, compiler, start, parseStart);
      assert StatusOf(doc, parseStart) == Ok([
        BuildInfo([Sample(map["compiler" := Lookup(process, "compiler", PyNone),
                              "build" := Lookup(process, "build", PyNone)], Int(1))]),
        Startup([Sample(map[], Int(t))])]);
      assert compiler.Snapshot() == StatusOf(doc, parseStart).value[0];
      assert start.Snapshot() == StatusOf(doc, parseStart).value[1];
    } else {
      assert StatusOf(doc, parseStart) == Ok([BuildInfo([]), Startup([])]);
      assert compiler.Snapshot() == BuildInfo([]) && start.Snapshot() == Startup([]);
    }

    var out := [compiler.Snapshot(), start.Snapshot()];
    assert out == StatusOf(doc, parseStart).value;
    r := Ok(out);
  }

  /** No document, no metrics; a document that is not a dict raises. */
  lemma StatusOutcome(data: Option<Json>, parseStart: StartParser)
    ensures IsNone(data) ==> StatusFamilies(data, parseStart) == Ok([])
    ensures !IsNone(data) && !data.value.JObj? ==> StatusFamilies(data, parseStart) == Raised(AttributeError)
  {
  }

  /** The status mapper completes exactly when `status` is missing or a dict
      and, when its `process` is truthy, that is a dict whose start time
      parses. */
  lemma StatusCompletes(doc: map<string, Json>, parseStart: StartParser)
    ensures StatusOf(doc, parseStart).Ok? <==>
      && ("status" !in doc || doc["status"].JObj?)
      && var status := if "status" in doc then doc["status"].fields else map[];
         ("process" in status && JTruthy(status["process"]) ==>
            && status["process"].JObj?
            && StartTime(status["process"].fields, parseStart).Ok?)
  {
  }

  /** A `status` that is present but not a dict, or a truthy `process` that is
      not a dict, raises `AttributeError` at its `.get`. */
  lemma StatusAttributeError(doc: map<string, Json>, parseStart: StartParser)
    ensures "status" in doc && !doc["status"].JObj? ==>
      StatusOf(doc, parseStart) == Raised(AttributeError)
    ensures "status" in doc && doc["status"].JObj? &&
            "process" in doc["status"].fields && JTruthy(doc["status"].fields["process"]) &&
            !doc["status"].fields["process"].JObj? ==>
      StatusOf(doc, parseStart) == Raised(AttributeError)
  {
  }

  /** Whenever the status mapper completes it yields the build-information
      gauge and the start-time counter, each once, with the same number of
      samples, at most one. */
  lemma {:induction false} StatusFamilyNames(doc: map<string, Json>, parseStart: StartParser)
    requires StatusOf(doc, parseStart).Ok?
    ensures multiset(Names(StatusOf(doc, parseStart).value)) == multiset{"hhvm_build_info", "hhvm_startup"}
    ensures forall f :: f in StatusOf(doc, parseStart).value ==>
      && (f.name == "hhvm_build_info" ==> f.kind == Gauge && f.labelNames == ["compiler", "build"])
      && (f.name == "hhvm_startup" ==> f.kind == Counter && f.labelNames == [])
    ensures forall f, g :: f in StatusOf(doc, parseStart).value && g in StatusOf(doc, parseStart).value &&
                           f.name == "hhvm_build_info" && g.name == "hhvm_startup" ==>
      |f.samples| == |g.samples| <= 1
  {
    var fs := StatusOf(doc, parseStart).value;
    assert Names(fs) == ["hhvm_build_info", "hhvm_startup"];
    OnlyFamilyNamed(fs, 0);
    OnlyFamilyNamed(fs, 1);
  }

  /** A missing or empty `status.process` section: both families, no samples. */
  lemma StatusWithoutProcess(doc: map<string, Json>, status: map<string, Json>, parseStart: StartParser)
    requires Section(doc, "status") == Ok(status)
    requires "process" !in status || !JTruthy(status["process"])
    ensures StatusOf(doc, parseStart) == Ok([
      Family(Gauge, "hhvm_build_info", "HHVM build information", ["compiler", "build"], []),
      Family(Counter, "hhvm_startup", "HHVM process start time", [], [])])
  {
  }

  /** A non-empty process section whose `start` parses to `t`: one build
      sample labelled by `compiler` and `build` (`None` when missing) with
      value 1, and one start-time sample equal to `t`. */
  lemma StatusWithProcess(doc: map<string, Json>, process: map<string, Json>, parseStart: StartParser,
                          start: string, t: int)
    requires "status" in doc && doc["status"].JObj?
    requires "process" in doc["status"].fields && doc["status"].fields["process"] == JObj(process)
    requires "start" in process && process["start"] == JStr(start) && parseStart(start) == Some(t)
    ensures StatusOf(doc, parseStart) == Ok([
      BuildInfo([Sample(map["compiler" := if "compiler" in process then Raw(process["compiler"]) else PyNone,
                            "build" := if "build" in process then Raw(process["build"]) else PyNone], Int(1))]),
      Startup([Sample(map[], Int(t))])])
  {
  }

  /** A non-empty process section without `start` parses the empty string,
      which does not match the format: the mapper raises. */
  lemma StatusMissingStart(doc: map<string, Json>, process: map<string, Json>, parseStart: StartParser)
    requires "status" in doc && doc["status"].JObj?
    requires "process" in doc["status"].fields && doc["status"].fields["process"] == JObj(process)
    requires |process| > 0 && "start" !in process
    requires parseStart("") == None
    ensures StatusOf(doc, parseStart) == Raised(ValueError)
  {
  }

  /** A `start` that is not a string cannot be given to the parser at all. */
  lemma StatusNonStringStart(doc: map<string, Json>, process: map<string, Json>, parseStart: StartParser)
    requires "status" in doc && doc["status"].JObj?
    requires "process" in doc["status"].fields && doc["status"].fields["process"] == JObj(process)
    requires "start" in process && !process["start"].JStr?
    ensures StatusOf(doc, parseStart) == Raised(TypeError)
  {
  }

  /** Every status sample carries exactly its family's label names. */
  lemma StatusWellLabelled(doc: map<string, Json>, parseStart: StartParser)
    requires StatusOf(doc, parseStart).Ok?
    ensures forall f :: f in StatusOf(doc, parseStart).value ==> WellLabelled(f)
  {
    assert (set n | n in ["compiler", "build"]) == {"compiler", "build"};
  }
}
