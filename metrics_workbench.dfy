/** The metric library (components/metrics/MetricsWorkbench.tsx): the saved
    metrics persisted in browser storage under "customMetrics", and the
    workbench state that the save, delete and select handlers replace. */
module MetricsWorkbench {
  import opened Common
  import opened Formula
  import opened MetricBuilder

  /** What storage holds under "customMetrics": nothing, the empty string,
      text that does not parse as JSON, or a parsed JSON value. JSON text
      itself is not modelled. */
  datatype Stored = Absent | Empty | Corrupt | Json(v: Value)

  /** A stored record is kept when it is an object whose id, name and
      formula are strings. */
  predicate IsValidRecord(v: Value) {
    v.Obj? && "id" in v.fields && v.fields["id"].Str?
    && "name" in v.fields && v.fields["name"].Str?
    && "formula" in v.fields && v.fields["formula"].Str?
  }

  /** The JSON object a metric is stored as. */
  function Encode(m: CustomMetric): (r: Value)
    ensures IsValidRecord(r)
  {
    var base := map["id" := Str(m.id), "name" := Str(m.name), "formula" := Str(m.formula),
                     "createdAt" := m.createdAt];
    Obj(if m.description.Some? then base["description" := Str(m.description.value)] else base)
  }

  /** A valid record read back as a metric (a description that is not a
      string is dropped, a missing createdAt reads as null). */
  function Decode(v: Value): (r: CustomMetric)
    requires IsValidRecord(v)
    ensures Str(r.id) == v.fields["id"] && Str(r.name) == v.fields["name"] && Str(r.formula) == v.fields["formula"]
  {
    var f := v.fields;
    CustomMetric(f["id"].s, f["name"].s, f["formula"].s,
                 if "description" in f && f["description"].Str? then Some(f["description"].s) else None,
                 if "createdAt" in f then f["createdAt"] else Null)
  }

  /** A stored metric reads back as itself. */
  lemma DecodeEncode(m: CustomMetric)
    ensures Decode(Encode(m)) == m
  {
  }

  function DecodeAll(vs: seq<Value>): (r: seq<CustomMetric>)
    requires forall v :: v in vs ==> IsValidRecord(v)
    ensures |r| == |vs|
    ensures forall k :: 0 <= k < |vs| ==> r[k] == Decode(vs[k])
  {
    seq(|vs|, k requires 0 <= k < |vs| => Decode(vs[k]))
  }

  function EncodeAll(ms: seq<CustomMetric>): (r: seq<Value>)
    ensures |r| == |ms|
    ensures forall k :: 0 <= k < |ms| ==> r[k] == Encode(ms[k])
  {
    seq(|ms|, k requires 0 <= k < |ms| => Encode(ms[k]))
  }

  /** What loading does to storage besides returning metrics. */
  datatype LoadResult = LoadResult(metrics: seq<CustomMetric>, clearsStorage: bool)

  /** loadMetricsFromStorage. Nothing stored gives []; a parse failure, or a
      parsed value without `filter` (anything but an array), throws inside
      the try block, which clears storage and gives []; an array keeps its
      valid records in order. */
  function LoadMetrics(s: Stored): (r: LoadResult)
    ensures (s.Absent? || s.Empty?) ==> r == LoadResult([], false)
    ensures r.clearsStorage <==> s.Corrupt? || (s.Json? && !s.v.Arr?)
    ensures r.clearsStorage ==> r.metrics == []
    ensures s.Json? && s.v.Arr? ==>
      var kept := Filter(s.v.elems, IsValidRecord);
      |r.metrics| == |kept| && forall k :: 0 <= k < |kept| ==> r.metrics[k] == Decode(kept[k])
  {
    match s
    case Absent => LoadResult([], false)
    case Empty => LoadResult([], false)
    case Corrupt => LoadResult([], true)
    case Json(v) =>
      if v.Arr? then LoadResult(DecodeAll(Filter(v.elems, IsValidRecord)), false)
      else LoadResult([], true)
  }

  /** What saving writes. */
  function Persisted(ms: seq<CustomMetric>): Stored {
    Json(Arr(EncodeAll(ms)))
  }

  /** Whatever the workbench persists, loading gives back the same list. */
  lemma LoadPersisted(ms: seq<CustomMetric>)
    ensures LoadMetrics(Persisted(ms)) == LoadResult(ms, false)
  {
    var vs := EncodeAll(ms);
    assert forall v :: v in vs ==> IsValidRecord(v);
    assert Filter(vs, IsValidRecord) == vs;
    forall k | 0 <= k < |ms| ensures Decode(vs[k]) == ms[k] {
      DecodeEncode(ms[k]);
    }
  }

  /** handleDeleteMetric's list: every metric with another id, in order. */
  function Deleted(ms: seq<CustomMetric>, id: string): (r: seq<CustomMetric>)
    ensures |r| <= |ms|
    ensures forall m :: m in r ==> m in ms && m.id != id
    ensures forall m :: m in ms && m.id != id ==> m in r
    ensures (forall m :: m in ms ==> m.id != id) ==> r == ms
  {
    Filter(ms, (m: CustomMetric) => m.id != id)
  }

  /** Deleting an id twice is deleting it once. */
  lemma DeleteIdempotent(ms: seq<CustomMetric>, id: string)
    ensures Deleted(Deleted(ms, id), id) == Deleted(ms, id)
  {
  }

  /** Saving a metric under a fresh id and then deleting that id gives back
      the list as it was. */
  lemma {:induction false} DeleteUndoesSave(ms: seq<CustomMetric>, m: CustomMetric)
    requires forall x :: x in ms ==> x.id != m.id
    ensures Deleted(ms + [m], m.id) == ms
  {
    FilterOfConcat(ms, [m], (x: CustomMetric) => x.id != m.id);
    FilterSingleton(m, (x: CustomMetric) => x.id != m.id);
  }

  /** handleSelectMetric: selecting the current metric deselects it,
      selecting any other one makes it the selection. */
  function NextSelection(selected: Option<string>, id: string): (r: Option<string>)
    ensures r.Some? ==> r == Some(id) && selected != Some(id)
    ensures r.None? ==> selected == Some(id)
  {
    if selected == Some(id) then None else Some(id)
  }

  /** Selecting the same metric twice from no selection, or from that
      metric, returns to where it started. */
  lemma SelectTwice(selected: Option<string>, id: string)
    requires selected == None || selected == Some(id)
    ensures NextSelection(NextSelection(selected, id), id) == selected
  {
  }

  /** The workbench component's state, with browser storage and the calls
      made to onMetricSelect. */
  class Workbench {
    var metrics: seq<CustomMetric>
    var isCreatingNew: bool
    var selectedMetricId: Option<string>
    var storage: Stored
    /** Every argument passed to onMetricSelect, in order (None = null). */
    var notified: seq<Option<CustomMetric>>

    /** Mounting: the initial state, then the effect that loads the
        metrics from storage. */
    constructor (s: Stored)
      ensures metrics == LoadMetrics(s).metrics
      ensures storage == if LoadMetrics(s).clearsStorage then Absent else s
      ensures !isCreatingNew && selectedMetricId.None? && notified == []
    {
      var loaded := LoadMetrics(s);
      metrics := loaded.metrics;
      isCreatingNew := false;
      selectedMetricId := None;
      storage := if loaded.clearsStorage then Absent else s;
      notified := [];
    }

    /** handleSaveMetric, with the generated id and creation date as
        inputs. */
    method SaveMetric(draft: Draft, id: string, createdAt: Value)
      modifies this
      ensures metrics == old(metrics) + [CustomMetric(id, draft.name, draft.formula, Some(draft.description), createdAt)]
      ensures storage == Persisted(metrics)
      ensures !isCreatingNew && selectedMetricId == Some(id)
      ensures notified == old(notified) + [Some(metrics[|metrics| - 1])]
    {
      var m := CustomMetric(id, draft.name, draft.formula, Some(draft.description), createdAt);
      metrics := metrics + [m];
      storage := Persisted(metrics);
      isCreatingNew := false;
      selectedMetricId := Some(id);
      notified := notified + [Some(m)];
    }

    /** handleDeleteMetric. */
    method DeleteMetric(id: string)
      modifies this
      ensures metrics == Deleted(old(metrics), id)
      ensures storage == Persisted(metrics)
      ensures isCreatingNew == old(isCreatingNew)
      ensures old(selectedMetricId) == Some(id) ==> selectedMetricId.None? && notified == old(notified) + [None]
      ensures old(selectedMetricId) != Some(id) ==>
        selectedMetricId == old(selectedMetricId) && notified == old(notified)
    {
      metrics := Deleted(metrics, id);
      storage := Persisted(metrics);
      if selectedMetricId == Some(id) {
        selectedMetricId := None;
        notified := notified + [None];
      }
    }

    /** handleSelectMetric. */
    method SelectMetric(m: CustomMetric)
      modifies this
      ensures selectedMetricId == NextSelection(old(selectedMetricId), m.id)
      ensures notified == old(notified) + [if selectedMetricId.None? then None else Some(m)]
      ensures metrics == old(metrics) && storage == old(storage) && isCreatingNew == old(isCreatingNew)
    {
      if selectedMetricId == Some(m.id) {
        selectedMetricId := None;
        notified := notified + [None];
      } else {
        selectedMetricId := Some(m.id);
        notified := notified + [Some(m)];
      }
    }
  }
}
