/**
 * The part of the metrics client library the exporter uses: metric families
 * that collect samples through `add_metric`, and their values once yielded.
 */
module Prometheus {
  import opened JsonValues

  datatype Kind = Gauge | Counter

  /** One sample: its label dict and its value. */
  datatype Sample = Sample(labels: map<string, Value>, value: Value)

  /** A metric family as handed to the registry. */
  datatype Family = Family(kind: Kind, name: string, help: string, labelNames: seq<string>, samples: seq<Sample>)

  /** The family names, in order. */
  function Names(fs: seq<Family>): seq<string>
  {
    seq(|fs|, i requires 0 <= i < |fs| => fs[i].name)
  }

  /** `dict(zip(names, values))`: pairs up to the shorter sequence, a later
      duplicate name overriding an earlier one. */
  function Zip(names: seq<string>, values: seq<Value>): map<string, Value>
  {
    if |names| == 0 || |values| == 0 then map[]
    else map[names[0] := values[0]] + Zip(names[1..], values[1..])
  }

  lemma {:induction false} ZipKeys(names: seq<string>, values: seq<Value>)
    requires |names| == |values|
    ensures Zip(names, values).Keys == set n | n in names
  {
    if |names| > 0 {
      ZipKeys(names[1..], values[1..]);
      assert names == [names[0]] + names[1..];
    }
  }

  lemma ZipSingle(name: string, value: Value)
    ensures Zip([name], [value]) == map[name := value]
  {
    assert Zip([name][1..], [value][1..]) == map[];
    assert map[name := value] + map[] == map[name := value];
  }

  lemma ZipPair(first: string, second: string, v1: Value, v2: Value)
    requires first != second
    ensures Zip([first, second], [v1, v2]) == map[first := v1, second := v2]
  {
    ZipSingle(second, v2);
    assert [first, second][1..] == [second] && [v1, v2][1..] == [v2];
    assert map[first := v1] + map[second := v2] == map[first := v1, second := v2];
  }

  /** Every sample of the family carries exactly the family's label names. */
  predicate WellLabelled(f: Family) {
    forall s :: s in f.samples ==> s.labels.Keys == set n | n in f.labelNames
  }

  /** When the family at index `i` is the only one with its name, every
      family of that name is that one. */
  lemma OnlyFamilyNamed(fs: seq<Family>, i: nat)
    requires i < |fs|
    requires forall j :: 0 <= j < |fs| && j != i ==> Names(fs)[j] != Names(fs)[i]
    ensures forall f :: f in fs && f.name == fs[i].name ==> f == fs[i]
  {
    forall f | f in fs && f.name == fs[i].name
      ensures f == fs[i]
    {
      var j :| 0 <= j < |fs| && fs[j] == f;
      assert Names(fs)[j] == Names(fs)[i];
    }
  }

  /** A family without label names is well labelled when its samples carry no labels. */
  lemma UnlabelledWellLabelled(f: Family)
    requires f.labelNames == []
    requires forall s :: s in f.samples ==> s.labels == map[]
    ensures WellLabelled(f)
  {
    assert (set n: string | n in []) == {};
  }

  /** A `GaugeMetricFamily` or `CounterMetricFamily` object: created empty,
      then filled in place by `add_metric`. */
  class MetricFamily {
    const kind: Kind
    const name: string
    const help: string
    const labelNames: seq<string>
    var samples: seq<Sample>

    constructor (kind: Kind, name: string, help: string, labelNames: seq<string>)
      ensures Snapshot() == Family(kind, name, help, labelNames, [])
    {
      this.kind := kind;
      this.name := name;
      this.help := help;
      this.labelNames := labelNames;
      samples := [];
    }

    /** `add_metric(labels, value)`: appends one sample, its label values
        zipped with the family's label names. */
    method AddMetric(labels: seq<Value>, value: Value)
      modifies this
      ensures samples == old(samples) + [Sample(Zip(labelNames, labels), value)]
      ensures |labels| == |labelNames| ==>
        samples[|samples| - 1].labels.Keys == set n | n in labelNames
    {
      samples := samples + [Sample(Zip(labelNames, labels), value)];
      if |labels| == |labelNames| {
        ZipKeys(labelNames, labels);
      }
    }

    /** The family's current value. */
    function Snapshot(): Family
      reads this
    {
      Family(kind, name, help, labelNames, samples)
    }
  }

  /** The values of a sequence of family objects, as the generator yields them. */
  function Snapshots(fs: seq<MetricFamily>): (r: seq<Family>)
    reads fs
    ensures |r| == |fs|
    ensures forall i :: 0 <= i < |fs| ==> r[i] == fs[i].Snapshot()
  {
    if fs == [] then [] else [fs[0].Snapshot()] + Snapshots(fs[1..])
  }
}
