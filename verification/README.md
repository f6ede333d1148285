# hhvm_exporter metric mapping, in Dafny

This project models the scrape path of the Wikimedia `hhvm_exporter`, a
Prometheus exporter for the HHVM admin interface, and proves properties of it.
The `HHVMCollector` fetches three JSON documents from the admin URL: `/check-health`,
`/memory.json` and `/status.json`. Three mappers turn them into metric
families, and `collect` yields those families in order, followed by the
`hhvm_up` gauge.

The files:

- `json.dfy` (`JsonValues`) holds the Python values involved:
  - a JSON document (`Json`; `JNull` is Python `None`);
  - a sample value (`Value`: a JSON value passed through, the `nan` tag, or an integer);
  - the exceptions the mappers can raise (`Error`) and a `Result` that carries them;
  - `dict.get` with a default (`Lookup`, and `Get`, which raises `AttributeError` on a non-dict);
  - Python truthiness.
- `prometheus.dfy` (`Prometheus`) holds `GaugeMetricFamily` / `CounterMetricFamily` as a class
  `MetricFamily`. It is created empty and filled in place by `AddMetric`, and it
  has a value snapshot `Family`.
- `health.dfy`, `memory.dfy` and `status.dfy` hold the three mappers. Each has:
  - a reference definition: a function from the fetched document to the
    families yielded, or the exception raised;
  - an imperative method that builds the families the way the source does and
    is proved equal to it;
  - lemmas stating the promised properties.
- `collector.dfy` (`Exporter`) holds `collect`:
  - the class `HHVMCollector` with its method `Collect`, proved equal to the
    reference definition `ScrapeOf`;
  - lemmas about order, `hhvm_up`, failures and labels.

Things outside the code are parameters:

- The HTTP fetch (`_fetch_json`) is the function `fetch: string -> Option<Json>`.
  It gives `None` where `_fetch_json` catches an exception: a connection error, a
  timeout, an HTTP error status, or a `ValueError`, such as a body that is not
  JSON or a malformed admin URL (hhvm_exporter/exporter.py:43-47).
- Parsing the process start time (`strptime` with the admin interface's date
  format, then `strftime('%s')`) is the function `parseStart: string -> Option<int>`.
  It gives `None` when the text does not parse.

A mapper builds all its families before yielding the first one. So a mapper
either yields all its families, or raises having yielded none. `collect` lets
exceptions propagate. A scrape (`Scrape`) is therefore the families yielded so
far, plus the exception that ended it, if any.

What the code does, where it differs from what its test or a quick reading suggests:

- `_collect_memory` never yields `hhvm_tc_used_bytes`. test/test_collector.py:30-36
  lists it among the names expected from `_collect_memory({})`. The model follows
  the code, and `Memory.MemoryFamilyNames` proves the name is absent.
- `if stringsm:` tests truthiness, so a `Static Strings` section that is `{}`
  adds no static-string samples (hhvm_exporter/exporter.py:144-145).
- Nothing in `_collect_status` catches the exception from `strptime`. A start
  time that does not parse therefore ends `collect` after the memory families,
  before `hhvm_up` (hhvm_exporter/exporter.py:172-174).
- `all([status_data, memory_data, health_data])` tests truthiness, so a fetched
  `{}` sets `hhvm_up` to 0 (hhvm_exporter/exporter.py:64).
- `.get` on a document or section that is not a dict raises `AttributeError`.
  The model returns that error; it is not a precondition.

## Model

| member | source | states |
|---|---|---|
| Prometheus.MetricFamily.constructor | hhvm_exporter/exporter.py:75-95 | a new family has the given kind, name, help and label names and no samples |
| Prometheus.MetricFamily.AddMetric | hhvm_exporter/exporter.py:98-99 | `add_metric` appends exactly one sample, pairing the label names with the given label values, and leaves everything else unchanged; when as many values as names are given, the new sample's label keys are exactly the label names |
| Prometheus.Snapshots | hhvm_exporter/exporter.py:110-111 | the families yielded are the current state of each family object, in order |
| Prometheus.ZipKeys | hhvm_exporter/exporter.py:98-108 | a sample's label keys are exactly the family's label names when as many values as names are given |
| Health.NewScalarFamilies | hhvm_exporter/exporter.py:75-95 | the family dict holds one fresh, distinct, empty gauge per scalar key, with the source's names and help texts |
| Health.NewTcFamily | hhvm_exporter/exporter.py:101-108 | the translation-cache family is the `main` sample read from `tc-size`, then one sample per block `hot`, `prof`, `cold`, `frozen` read from `tc-<block>size` |
| Health.CollectHealthDocument | hhvm_exporter/exporter.py:75-111 | after the add loop and the block loop, the families yielded for a dict document are exactly the reference `HealthOf` |
| Health.CollectHealth | hhvm_exporter/exporter.py:71-111 | `_collect_health` yields exactly `HealthFamilies`: nothing for `None`, `AttributeError` for a non-dict, `HealthOf` otherwise |
| Health.HealthOutcome | hhvm_exporter/exporter.py:71-73 | no document gives no families; a document that is not a dict raises `AttributeError`; a dict completes |
| Health.CatalogueNamesDistinct | hhvm_exporter/exporter.py:75-103 | the eight scalar family names and `hhvm_tc_used_bytes` are pairwise distinct |
| Health.HealthFamilyNames | hhvm_exporter/exporter.py:75-111 | every dict document yields exactly the nine health families, each name once |
| Health.HealthScalarSample | hhvm_exporter/exporter.py:97-99 | each scalar family is an unlabelled gauge with its help text and one sample: the document's value under its key, or `nan` when missing |
| Health.HealthTcSamples | hhvm_exporter/exporter.py:101-108 | `hhvm_tc_used_bytes` is labelled `block` and has exactly the five samples `main`, `hot`, `prof`, `cold`, `frozen`, in that order, from `tc-size` and `tc-<block>size`, each `nan` when missing |
| Health.HealthEmptyDocument | hhvm_exporter/exporter.py:97-108 | for `{}` every health sample is `nan` |
| Health.HealthWellLabelled | hhvm_exporter/exporter.py:97-108 | every health sample carries exactly its family's label names |
| Memory.AddProcessStats | hhvm_exporter/exporter.py:137-142 | `Process Stats (bytes)` must be a dict, else `AttributeError`; `VmSize` and the four segments `rss`, `shared`, `text`, `data` are appended in order, passed through as `None` when missing; when it raises neither family gains a sample |
| Memory.AddStaticStrings | hhvm_exporter/exporter.py:146-149 | the string count is `Details.Count` and the byte total is `Bytes`, each `nan` when missing; a non-dict section or `Details` raises and leaves both families unchanged |
| Memory.AddBreakdown | hhvm_exporter/exporter.py:144-149 | the static-string samples are appended exactly when `Breakdown.Static Strings` is truthy; a non-dict `Breakdown` raises and leaves both string families unchanged |
| Memory.AddSections | hhvm_exporter/exporter.py:137-149 | the process statistics are read, then the breakdown; the result and both sample appends are those of `SectionReadings`; a raise leaves the string families unchanged, and the process families too when `Process Stats (bytes)` is not a dict |
| Memory.CollectMemoryDocument | hhvm_exporter/exporter.py:117-152 | for a dict document the families yielded, or the exception raised, are exactly the reference `MemoryOf` |
| Memory.CollectMemory | hhvm_exporter/exporter.py:113-152 | `_collect_memory` yields exactly `MemoryFamilies`: nothing for `None`, `AttributeError` for a non-dict, `MemoryOf` otherwise |
| Memory.MemoryOutcome | hhvm_exporter/exporter.py:113-115 | no document gives no families; a document that is not a dict raises `AttributeError` |
| Memory.MemoryCompletes | hhvm_exporter/exporter.py:134-149 | the memory mapper completes if and only if `Memory`, then `Process Stats (bytes)` and `Breakdown` inside it, are each missing or a dict, and a truthy `Static Strings` is a dict whose `Details` is missing or a dict; every failure is `AttributeError` |
| Memory.MemoryFamilyNames | hhvm_exporter/exporter.py:117-132 | whenever the memory mapper completes it yields exactly its five families, each once, and never `hhvm_tc_used_bytes` |
| Memory.MemorySuccessSample | hhvm_exporter/exporter.py:135 | `hhvm_memory_success` has one unlabelled sample: `Success`, or 0 when missing |
| Memory.MemoryProcessSamples | hhvm_exporter/exporter.py:137-142 | `hhvm_process_memory_size_bytes` has one sample from `VmSize`; `hhvm_process_memory_bytes` is labelled `segment` with the four samples `rss`, `shared`, `text`, `data` in order; each is `None` when missing |
| Memory.MemoryWithoutSection | hhvm_exporter/exporter.py:134-149 | with no `Memory` section the mapper still completes, with every process value `None` and no static-string samples |
| Memory.StaticStringSamples | hhvm_exporter/exporter.py:144-149 | each static-string family has one sample if and only if `Static Strings` is present and truthy, and none otherwise; the samples are `Details.Count` and `Bytes`, `nan` when missing |
| Memory.MemoryWellLabelled | hhvm_exporter/exporter.py:137-149 | every memory sample carries exactly its family's label names |
| Status.AddProcess | hhvm_exporter/exporter.py:168-176 | the build sample (`compiler`, `build`, `None` when missing; value 1) is appended first; then the start time is parsed, and a non-string raises `TypeError` and an unparsable one `ValueError`; on success one startup sample holds the parsed time, and on a raise the startup family is unchanged |
| Status.CollectStatus | hhvm_exporter/exporter.py:154-179 | `_collect_status` yields exactly `StatusFamilies`: nothing for `None`, `AttributeError` for a non-dict, `StatusOf` otherwise |
| Status.StatusOutcome | hhvm_exporter/exporter.py:154-156 | no document gives no families; a document that is not a dict raises `AttributeError` |
| Status.StatusCompletes | hhvm_exporter/exporter.py:166-176 | the status mapper completes if and only if `status` is missing or a dict and a truthy `process` is a dict whose start time parses |
| Status.StatusAttributeError | hhvm_exporter/exporter.py:166-169 | a `status` that is present but not a dict, or a truthy `process` that is not a dict, raises `AttributeError` |
| Status.StatusFamilyNames | hhvm_exporter/exporter.py:158-164 | whenever the status mapper completes it yields `hhvm_build_info` (a gauge labelled `compiler`, `build`) and `hhvm_startup` (an unlabelled counter), each once, with equally many samples, at most one |
| Status.StatusWithoutProcess | hhvm_exporter/exporter.py:166-167 | a missing or empty `status.process` yields both families with no samples |
| Status.StatusWithProcess | hhvm_exporter/exporter.py:166-176 | a process section with a parsable `start` yields exactly one build sample with value 1 and one startup sample with the parsed time |
| Status.StatusMissingStart | hhvm_exporter/exporter.py:172-174 | a non-empty process section without `start` parses `''`, which fails and raises `ValueError` |
| Status.StatusNonStringStart | hhvm_exporter/exporter.py:172-174 | a `start` that is not a string raises `TypeError` |
| Status.StatusWellLabelled | hhvm_exporter/exporter.py:168-176 | every status sample carries exactly its family's label names |
| Exporter.NewUpFamily | hhvm_exporter/exporter.py:63-67 | the up gauge has one unlabelled sample, 1 when the documents are all truthy and 0 otherwise |
| Exporter.HHVMCollector.constructor | hhvm_exporter/exporter.py:35-36 | the collector keeps the admin URL |
| Exporter.HHVMCollector.Collect | hhvm_exporter/exporter.py:49-69 | `collect` fetches the three documents from the admin URL and yields exactly `ScrapeOf` of them |
| Exporter.HealthNeverEmitsUp | hhvm_exporter/exporter.py:75-111 | the health mapper never yields `hhvm_up` |
| Exporter.MemoryNeverEmitsUp | hhvm_exporter/exporter.py:117-152 | the memory mapper never yields `hhvm_up` |
| Exporter.StatusNeverEmitsUp | hhvm_exporter/exporter.py:158-179 | the status mapper never yields `hhvm_up` |
| Exporter.CombineComplete | hhvm_exporter/exporter.py:51-69 | three completed mapper outputs are yielded in order, followed by exactly one `hhvm_up` |
| Exporter.CompleteScrape | hhvm_exporter/exporter.py:49-69 | a scrape completes if and only if no mapper raises; it then yields health, memory and status in that order and ends with the only `hhvm_up`, which is 1 if and only if all three documents are truthy, else 0 |
| Exporter.FailedScrape | hhvm_exporter/exporter.py:51-61 | a scrape stopped by an exception keeps exactly the families of the mappers before the failing one, carries that exception, and never yields `hhvm_up` |
| Exporter.NothingFetched | hhvm_exporter/exporter.py:51-69 | with no document fetched the scrape is the single `hhvm_up` 0 |
| Exporter.EmptyDocumentsAreDown | hhvm_exporter/exporter.py:51-69 | three fetched `{}` documents yield every family, with `nan`, `None`, 0 for `hhvm_memory_success`, or no samples, and `hhvm_up` 0 |
| Exporter.StatusUnreachable | hhvm_exporter/exporter.py:58-69 | an unreachable status endpoint keeps the health and memory families and gives `hhvm_up` 0 |
| Exporter.MissingStartAbortsScrape | hhvm_exporter/exporter.py:58-61 | a non-empty process section without `start` ends the scrape with `ValueError` after the health and memory families |
| Exporter.MalformedHealthYieldsNothing | hhvm_exporter/exporter.py:51-53 | a health document that is neither `null` nor a dict ends the scrape with `AttributeError` before anything is yielded |
| Exporter.CombineWellLabelled | hhvm_exporter/exporter.py:51-69 | combining well-labelled mapper outputs yields only well-labelled families |
| Exporter.ScrapeWellLabelled | hhvm_exporter/exporter.py:49-69 | every sample of every scrape carries exactly its family's label names |

## Left out

- `_fetch_json` (hhvm_exporter/exporter.py:38-47) is left out: the HTTP request, its 2-second timeout and its exception mapping. The model takes its result as the `fetch` parameter.
- A fetch that raises an exception other than the four `_fetch_json` catches (hhvm_exporter/exporter.py:43-46) is not modelled, because `fetch` always returns a value. Examples are too many redirects and a broken chunked or compressed body. Such an exception would end `collect` at that fetch.
- `strptime` with the admin date format and `strftime('%s')` (hhvm_exporter/exporter.py:173-176) depend on the C library and the local timezone. They are the `parseStart` parameter. The startup value is its integer result, not the Python float built from it.
- The `Summary` timer around `collect`, the registry, the HTTP server, the text exposition format (including the `_total` suffix of counters), and `main` are left out: argument parsing, logging, the sleep loop and the exit code.
- Generator laziness is not modelled. Because every mapper builds all its families before its first yield, only the whole output and the exception matter.
- `memory_data` and `status_data` are not fetched after an earlier mapper raised. `Collect` returns before those fetches, but `ScrapeOf` still names them as arguments and ignores them.
- `raise StopIteration()` ends a Python 2 generator with no output. Under PEP 479 (Python 3.7 and later) it would become `RuntimeError`; the model gives the Python 2 result.
- `nan` is a tag, not an IEEE value. JSON numbers are real numbers. The non-standard `NaN` and `Infinity` JSON literals are not represented.
- Python's dict order of `metrics.values()` is not fixed in Python 2. The model yields the families in dict-literal order, and the lemmas about names state them as multisets or per name. The fixed sample orders inside `hhvm_tc_used_bytes` and `hhvm_process_memory_bytes` are stated exactly.
- A fetched JSON `null` is treated like a failed fetch, as `data is None` treats it.
