/**
 * The collector: `collect` fetches the three admin documents in turn, yields
 * each mapper's families as soon as they are built, and ends with the
 * `hhvm_up` gauge.
 */
module Exporter {
  import opened JsonValues
  import opened Prometheus
  import Health
  import Memory
  import Status

  /** What one call of `collect` hands to the registry: the families yielded,
      and the exception that ended the generator early, if any. */
  datatype Scrape = Scrape(emitted: seq<Family>, failure: Option<Error>)

  /** Python truthiness of a fetch result: `None` and empty documents are false. */
  predicate Fetched(d: Option<Json>) {
    d.Some? && JTruthy(d.value)
  }

  function UpFamily(up: bool): Family {
    Family(Gauge, "hhvm_up", "HHVM admin interface is up", [], [Sample(map[], Int(if up then 1 else 0))])
  }

  /** How `collect` combines the three mapper outcomes: each mapper's
      families in turn, stopping at the first exception, and `hhvm_up` last. */
  function Combine(health: Result<seq<Family>>, memory: Result<seq<Family>>,
                   status: Result<seq<Family>>, up: bool): Scrape
  {
    match health
    case Raised(e) => Scrape([], Some(e))
    case Ok(h) =>
      match memory
      case Raised(e) => Scrape(h, Some(e))
      case Ok(m) =>
        match status
        case Raised(e) => Scrape(h + m, Some(e))
        case Ok(s) => Scrape(h + m + s + [UpFamily(up)], None)
  }

  /** The reference definition of one scrape over the three fetch results. */
  function ScrapeOf(health: Option<Json>, memory: Option<Json>, status: Option<Json>,
                    parseStart: Status.StartParser): Scrape
  {
    Combine(Health.HealthFamilies(health), Memory.MemoryFamilies(memory),
            Status.StatusFamilies(status, parseStart),
            Fetched(status) && Fetched(memory) && Fetched(health))
  }

  const HealthPath := "/check-health"
  const MemoryPath := "/memory.json"
  const StatusPath := "/status.json"

  /** The `hhvm_up` gauge: one unlabelled sample, 1 when all three documents
      were fetched and non-empty, 0 otherwise. */
  method NewUpFamily(up: bool) returns (f: Family)
    ensures f == UpFamily(up)
  {
    var family := new MetricFamily(Gauge, "hhvm_up", "HHVM admin interface is up", []);
    if !up {
      family.AddMetric([], Int(0));
    } else {
      family.AddMetric([], Int(1));
    }
    f := family.Snapshot();
  }

  class HHVMCollector {
    const url: string

    constructor (adminUrl: string)
      ensures url == adminUrl
    {
      url := adminUrl;
    }

    /** `collect`: fetch, map and yield health, then memory, then status, then
        `hhvm_up`. `fetch` stands for `_fetch_json`, which gives `None` when
        the request raises a connection error, a timeout, an HTTP error
        status or a `ValueError` (a body that is not JSON, a malformed URL). */
    method Collect(fetch: string -> Option<Json>, parseStart: Status.StartParser) returns (s: Scrape)
      ensures s == ScrapeOf(fetch(url + HealthPath), fetch(url + MemoryPath), fetch(url + StatusPath), parseStart)
    {
      var healthData := fetch(url + HealthPath);
      var health := Health.CollectHealth(healthData);
      if health.Raised? {
        return Scrape([], Some(health.error));
      }
      var emitted := health.value;

      var memoryData := fetch(url + MemoryPath);
      var memory := Memory.CollectMemory(memoryData);
      if memory.Raised? {
        return Scrape(emitted, Some(memory.error));
      }
      emitted := emitted + memory.value;

      var statusData := fetch(url + StatusPath);
      var status := Status.CollectStatus(statusData, parseStart);
      if status.Raised? {
        return Scrape(emitted, Some(status.error));
      }
      emitted := emitted + status.value;

      var up := NewUpFamily(Fetched(statusData) && Fetched(memoryData) && Fetched(healthData));
      s := Scrape(emitted + [up], None);
    }
  }

  /** `Names` distributes over concatenation. */
  lemma NamesAppend(a: seq<Family>, b: seq<Family>)
    ensures Names(a + b) == Names(a) + Names(b)
  {
    assert |Names(a + b)| == |Names(a) + Names(b)|;
    forall i | 0 <= i < |a + b|
      ensures Names(a + b)[i] == (Names(a) + Names(b))[i]
    {
      if i < |a| {
        assert (a + b)[i] == a[i];
      } else {
        assert (a + b)[i] == b[i - |a|];
      }
    }
  }

  /** The health mapper never yields a family called `hhvm_up`. */
  lemma HealthNeverEmitsUp(health: Option<Json>)
    requires Health.HealthFamilies(health).Ok?
    ensures "hhvm_up" !in Names(Health.HealthFamilies(health).value)
  {
    if !IsNone(health) {
      Health.HealthFamilyNames(health.value.fields);
      assert "hhvm_up" !in multiset(Names(Health.HealthFamilies(health).value));
    }
  }

  /** The memory mapper never yields a family called `hhvm_up`. */
  lemma MemoryNeverEmitsUp(memory: Option<Json>)
    requires Memory.MemoryFamilies(memory).Ok?
    ensures "hhvm_up" !in Names(Memory.MemoryFamilies(memory).value)
  {
    if !IsNone(memory) {
      Memory.MemoryFamilyNames(memory.value.fields);
      assert "hhvm_up" !in multiset(Names(Memory.MemoryFamilies(memory).value));
    }
  }

  /** The status mapper never yields a family called `hhvm_up`. */
  lemma StatusNeverEmitsUp(status: Option<Json>, parseStart: Status.StartParser)
    requires Status.StatusFamilies(status, parseStart).Ok?
    ensures "hhvm_up" !in Names(Status.StatusFamilies(status, parseStart).value)
  {
    if !IsNone(status) {
      Status.StatusFamilyNames(status.value.fields, parseStart);
      assert "hhvm_up" !in multiset(Names(Status.StatusFamilies(status, parseStart).value));
    }
  }

  /** Combining three completed mapper outputs, none of which names
      `hhvm_up`, yields them in order followed by exactly one `hhvm_up`. */
  lemma {:induction false} CombineComplete(health: seq<Family>, memory: seq<Family>, status: seq<Family>, up: bool)
    requires "hhvm_up" !in Names(health) && "hhvm_up" !in Names(memory) && "hhvm_up" !in Names(status)
    ensures var sc := Combine(Ok(health), Ok(memory), Ok(status), up);
      && sc.failure.None?
      && sc.emitted == health + memory + status + [UpFamily(up)]
      && multiset(Names(sc.emitted))["hhvm_up"] == 1
  {
    NamesAppend(health, memory);
    NamesAppend(health + memory, status);
    NamesAppend(health + memory + status, [UpFamily(up)]);
    assert Names([UpFamily(up)]) == ["hhvm_up"];
    assert multiset(Names(health + memory + status))["hhvm_up"] == 0;
  }

  /** A scrape completes exactly when none of the three mappers raises; it then
      yields the health, memory and status families in that order and ends
      with the single `hhvm_up` family, whose value is 1 exactly when all
      three documents were fetched and non-empty. */
  lemma {:induction false} CompleteScrape(health: Option<Json>, memory: Option<Json>, status: Option<Json>,
                                          parseStart: Status.StartParser)
    ensures ScrapeOf(health, memory, status, parseStart).failure.None? <==>
      && Health.HealthFamilies(health).Ok?
      && Memory.MemoryFamilies(memory).Ok?
      && Status.StatusFamilies(status, parseStart).Ok?
    ensures var sc := ScrapeOf(health, memory, status, parseStart);
      sc.failure.None? ==>
        && sc.emitted == Health.HealthFamilies(health).value + Memory.MemoryFamilies(memory).value
                         + Status.StatusFamilies(status, parseStart).value + [sc.emitted[|sc.emitted| - 1]]
        && multiset(Names(sc.emitted))["hhvm_up"] == 1
        && sc.emitted[|sc.emitted| - 1].name == "hhvm_up"
        && (sc.emitted[|sc.emitted| - 1].samples == [Sample(map[], Int(1))] <==>
            Fetched(health) && Fetched(memory) && Fetched(status))
        && (sc.emitted[|sc.emitted| - 1].samples == [Sample(map[], Int(0))] <==>
            !(Fetched(health) && Fetched(memory) && Fetched(status)))
  {
    var hr := Health.HealthFamilies(health);
    var mr := Memory.MemoryFamilies(memory);
    var sr := Status.StatusFamilies(status, parseStart);
    var up := Fetched(status) && Fetched(memory) && Fetched(health);
    assert ScrapeOf(health, memory, status, parseStart) == Combine(hr, mr, sr, up);
    if hr.Ok? && mr.Ok? && sr.Ok? {
      HealthNeverEmitsUp(health);
      MemoryNeverEmitsUp(memory);
      StatusNeverEmitsUp(status, parseStart);
      CombineComplete(hr.value, mr.value, sr.value, up);
    }
  }

  /** An exception in any mapper ends the scrape: the families of the mappers
      that completed before it are kept, and `hhvm_up` is never yielded. */
  lemma {:induction false} FailedScrape(health: Option<Json>, memory: Option<Json>, status: Option<Json>,
                                        parseStart: Status.StartParser)
    ensures var sc := ScrapeOf(health, memory, status, parseStart);
      sc.failure.Some? ==>
        && "hhvm_up" !in Names(sc.emitted)
        && (Health.HealthFamilies(health).Raised? ==> sc == Scrape([], Some(Health.HealthFamilies(health).error)))
        && (Health.HealthFamilies(health).Ok? && Memory.MemoryFamilies(memory).Raised? ==>
              sc == Scrape(Health.HealthFamilies(health).value, Some(Memory.MemoryFamilies(memory).error)))
        && (Health.HealthFamilies(health).Ok? && Memory.MemoryFamilies(memory).Ok? ==>
              && Status.StatusFamilies(status, parseStart).Raised?
              && sc == Scrape(Health.HealthFamilies(health).value + Memory.MemoryFamilies(memory).value,
                              Some(Status.StatusFamilies(status, parseStart).error)))
  {
    var sc := ScrapeOf(health, memory, status, parseStart);
    if sc.failure.Some? {
      if Health.HealthFamilies(health).Ok? {
        HealthNeverEmitsUp(health);
      }
      if Health.HealthFamilies(health).Ok? && Memory.MemoryFamilies(memory).Ok? {
        MemoryNeverEmitsUp(memory);
        NamesAppend(Health.HealthFamilies(health).value, Memory.MemoryFamilies(memory).value);
      }
    }
  }

  /** When no document can be fetched, the scrape is the single `hhvm_up`
      family with value 0. */
  lemma NothingFetched(parseStart: Status.StartParser)
    ensures ScrapeOf(None, None, None, parseStart) == Scrape([UpFamily(false)], None)
  {
  }

  /** Three empty documents are fetched, but `{}` is falsy: every mapper
      completes and the scrape reports the admin interface as down. */
  lemma EmptyDocumentsAreDown(parseStart: Status.StartParser)
    ensures var e := Some(JObj(map[]));
      ScrapeOf(e, e, e, parseStart) == Scrape(
        Health.HealthOf(map[]) + Memory.MemoryOf(map[]).value
        + [Status.BuildInfo([]), Status.Startup([])] + [UpFamily(false)], None)
  {
    Memory.MemoryWithoutSection(map[]);
    Status.StatusWithoutProcess(map[], map[], parseStart);
  }

  /** The status endpoint being unreachable does not lose the health and
      memory families: they are yielded, followed by `hhvm_up` 0. */
  lemma StatusUnreachable(health: Option<Json>, memory: Option<Json>, parseStart: Status.StartParser)
    requires Health.HealthFamilies(health).Ok? && Memory.MemoryFamilies(memory).Ok?
    ensures ScrapeOf(health, memory, None, parseStart) == Scrape(
      Health.HealthFamilies(health).value + Memory.MemoryFamilies(memory).value + [UpFamily(false)], None)
  {
    assert Health.HealthFamilies(health).value + Memory.MemoryFamilies(memory).value + []
        == Health.HealthFamilies(health).value + Memory.MemoryFamilies(memory).value;
  }

  /** A non-empty `process` section without `start` makes the start-time
      parse fail: the scrape stops after the memory families, with no
      `hhvm_up`. */
  lemma MissingStartAbortsScrape(health: Option<Json>, memory: Option<Json>, doc: map<string, Json>,
                                 process: map<string, Json>, parseStart: Status.StartParser)
    requires Health.HealthFamilies(health).Ok? && Memory.MemoryFamilies(memory).Ok?
    requires "status" in doc && doc["status"].JObj?
    requires "process" in doc["status"].fields && doc["status"].fields["process"] == JObj(process)
    requires |process| > 0 && "start" !in process
    requires parseStart("") == None
    ensures ScrapeOf(health, memory, Some(JObj(doc)), parseStart) == Scrape(
      Health.HealthFamilies(health).value + Memory.MemoryFamilies(memory).value, Some(ValueError))
  {
    Status.StatusMissingStart(doc, process, parseStart);
  }

  /** A health document that is not a JSON object aborts the scrape before
      anything is yielded. */
  lemma MalformedHealthYieldsNothing(health: Json, memory: Option<Json>, status: Option<Json>,
                                     parseStart: Status.StartParser)
    requires !health.JNull? && !health.JObj?
    ensures ScrapeOf(Some(health), memory, status, parseStart) == Scrape([], Some(AttributeError))
  {
  }

  /** Combining well-labelled mapper outputs yields only well-labelled families. */
  lemma CombineWellLabelled(health: Result<seq<Family>>, memory: Result<seq<Family>>,
                            status: Result<seq<Family>>, up: bool)
    requires health.Ok? ==> forall f :: f in health.value ==> WellLabelled(f)
    requires memory.Ok? ==> forall f :: f in memory.value ==> WellLabelled(f)
    requires status.Ok? ==> forall f :: f in status.value ==> WellLabelled(f)
    ensures forall f :: f in Combine(health, memory, status, up).emitted ==> WellLabelled(f)
  {
  }

  /** Every sample yielded by a scrape carries exactly its family's label names. */
  lemma {:induction false} ScrapeWellLabelled(health: Option<Json>, memory: Option<Json>, status: Option<Json>,
                                              parseStart: Status.StartParser)
    ensures forall f :: f in ScrapeOf(health, memory, status, parseStart).emitted ==> WellLabelled(f)
  {
    var hr := Health.HealthFamilies(health);
    var mr := Memory.MemoryFamilies(memory);
    var sr := Status.StatusFamilies(status, parseStart);
    if hr.Ok? && !IsNone(health) {
      Health.HealthWellLabelled(health.value.fields);
    }
    if mr.Ok? && !IsNone(memory) {
      Memory.MemoryWellLabelled(memory.value.fields);
    }
    if sr.Ok? && !IsNone(status) {
      Status.StatusWellLabelled(status.value.fields, parseStart);
    }
    CombineWellLabelled(hr, mr, sr, Fetched(status) && Fetched(memory) && Fetched(health));
  }
}
